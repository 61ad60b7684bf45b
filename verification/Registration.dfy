/** Provider registration: the in-memory slot registry, the persisted store, and the
    service that must keep the two in agreement through failures. */
module Registration {
  import opened Base

  /** A string field; the code only ever asks whether it is empty and whether two are equal. */
  datatype Text = Empty | Text(id: Id)

  datatype Kind = Embedded | External | OtherKind

  datatype Record = Record(
    id: Text, name: Text, serviceType: Text, schemaVersion: Text, kind: Kind,
    createTime: nat, updateTime: nat, endpoint: Text, details: nat)

  /** `validateStoredProvider`; time 0 is the zero time. */
  predicate ValidRecord(p: Record) {
    && p.id.Text? && p.name.Text? && p.serviceType.Text? && p.schemaVersion.Text?
    && !p.kind.OtherKind?
    && p.createTime != 0 && p.updateTime != 0
  }

  type Table = seq<Record>

  ghost predicate AllValid(s: Table) { forall p :: p in s ==> ValidRecord(p) }

  // ------------------------------------------------------------------ registry

  type Slots = map<Text, Text>

  predicate HeldByOther(slots: Slots, serviceType: Text, name: Text) {
    serviceType in slots && slots[serviceType] != name
  }

  function Moved(slots: Slots, name: Text, from: Text, to: Text): Slots {
    (slots - {from})[to := name]
  }

  /** Moving a slot and moving it back restores the registry exactly when the provider
      held the old slot and the new one was free. */
  lemma MoveBackRestores(slots: Slots, name: Text, from: Text, to: Text)
    requires from != to && !HeldByOther(slots, to, name) && !HeldByOther(slots, from, name)
    ensures Moved(Moved(slots, name, from, to), name, to, from) == slots <==> from in slots && to !in slots
  {
    var back := Moved(Moved(slots, name, from, to), name, to, from);
    assert from in back && to !in back;
    if from in slots && to !in slots {
      assert back == slots;
    }
  }

  /** Claiming a slot and releasing it restores the registry exactly when it was free. */
  lemma ReleaseRestores(slots: Slots, name: Text, serviceType: Text)
    ensures slots[serviceType := name] - {serviceType} == slots <==> serviceType !in slots
  {
    var back := slots[serviceType := name] - {serviceType};
    assert serviceType !in back;
    if serviceType !in slots {
      assert back == slots;
    }
  }

  class Registry {
    var slots: Slots

    constructor ()
      ensures slots == map[]
    {
      slots := map[];
    }

    method Claim(name: Text, serviceType: Text) returns (ok: bool)
      modifies this
      ensures ok <==> !HeldByOther(old(slots), serviceType, name)
      ensures slots == if ok then old(slots)[serviceType := name] else old(slots)
    {
      if serviceType in slots && slots[serviceType] != name {
        return false;
      }
      slots := slots[serviceType := name];
      return true;
    }

    method Move(name: Text, oldType: Text, newType: Text) returns (ok: bool)
      modifies this
      ensures ok <==> !HeldByOther(old(slots), newType, name) && !HeldByOther(old(slots), oldType, name)
      ensures slots == if ok then Moved(old(slots), name, oldType, newType) else old(slots)
    {
      if newType in slots && slots[newType] != name {
        return false;
      }
      if oldType in slots && slots[oldType] != name {
        return false;
      }
      slots := slots - {oldType};
      slots := slots[newType := name];
      return true;
    }

    method Release(serviceType: Text)
      modifies this
      ensures slots == old(slots) - {serviceType}
    {
      slots := slots - {serviceType};
    }
  }

  // --------------------------------------------------------------------- store

  /** Where a write fails, if it does. */
  datatype WriteFault = NoFault | Marshal | OpenTemp | WriteTemp(part: Table) | SyncTemp | CloseTemp | Rename | OpenDir | SyncDir

  /** The rename is the commit point. */
  predicate Committed(fault: WriteFault) { fault.NoFault? || fault.OpenDir? || fault.SyncDir? }

  datatype Result<T> = Ok(value: T) | Err

  ghost predicate Named(s: Table, name: Text) { exists p :: p in s && p.name == name }

  /** The table with the first record of this name replaced, or the record appended. */
  function Saved(s: Table, p: Record): Table {
    if s == [] then [p]
    else if s[0].name == p.name then [p] + s[1..]
    else [s[0]] + Saved(s[1..], p)
  }

  function Deleted(s: Table, name: Text): Table {
    if s == [] then []
    else if s[|s| - 1].name == name then Deleted(s[..|s| - 1], name)
    else Deleted(s[..|s| - 1], name) + [s[|s| - 1]]
  }

  lemma SavedStep(s: Table, i: nat, p: Record)
    requires i < |s|
    ensures s[..i] + Saved(s[i..], p) ==
            if s[i].name == p.name then s[i := p] else s[..i + 1] + Saved(s[i + 1..], p)
  {
    assert s[i..][1..] == s[i + 1..];
  }

  /** Replaces the first record of the same name in place, or appends. */
  method Replace(records: Table, p: Record) returns (providers: Table)
    ensures providers == Saved(records, p)
  {
    providers := records;
    assert records[..0] + Saved(records, p) == Saved(records, p) && records[0..] == records;
    for i := 0 to |records|
      invariant providers == records && Saved(records, p) == records[..i] + Saved(records[i..], p)
    {
      SavedStep(records, i, p);
      if providers[i].name == p.name {
        return providers[i := p];
      }
    }
    assert records[..|records|] == records && records[|records|..] == [];
    providers := providers + [p];
  }

  class FileStore {
    /** What the file holds; a missing or empty file holds no record. */
    var records: Table
    /** What the temporary file beside it holds, if it exists. */
    var temp: Option<Table>

    constructor ()
      ensures records == [] && temp.None?
    {
      records, temp := [], None;
    }

    /** Fails on an I/O or decoding fault, and when some record does not validate. */
    method ReadFile(fault: bool) returns (r: Result<Table>)
      ensures r.Err? <==> fault || !AllValid(records)
      ensures r.Ok? ==> r.value == records
    {
      if fault {
        return Err;
      }
      for i := 0 to |records|
        invariant forall j :: 0 <= j < i ==> ValidRecord(records[j])
      {
        if !ValidRecord(records[i]) {
          return Err;
        }
      }
      return Ok(records);
    }

    /** The new contents go to the temporary file, which is renamed over the old one.  A write
        that fails may leave any part of them in the temporary file. */
    method WriteFile(providers: Table, fault: WriteFault) returns (ok: bool)
      modifies this
      ensures ok <==> fault.NoFault? || fault.OpenDir? || fault.SyncDir?
      ensures records == if ok then providers else old(records)
      ensures ok ==> temp.None?
    {
      if fault.Marshal? {
        return false;
      }
      if fault.OpenTemp? {
        return false;
      }
      temp := Some([]);
      if fault.WriteTemp? {
        temp := Some(fault.part);
        return false;
      }
      temp := Some(providers);
      if fault.SyncTemp? {
        return false;
      }
      if fault.CloseTemp? {
        return false;
      }
      if fault.Rename? {
        return false;
      }
      records, temp := temp.value, None;
      // A directory that cannot be opened or synced afterwards is only logged.
      return true;
    }

    method Save(p: Record, readFault: bool, writeFault: WriteFault) returns (ok: bool)
      modifies this
      ensures ok <==> ValidRecord(p) && !readFault && AllValid(old(records)) && Committed(writeFault)
      ensures ok ==> && p.id.Text? && p.name.Text? && p.serviceType.Text? && p.schemaVersion.Text?
                     && (p.kind.Embedded? || p.kind.External?) && p.createTime != 0 && p.updateTime != 0
      ensures records == if ok then Saved(old(records), p) else old(records)
    {
      if !ValidRecord(p) {
        return false;
      }
      var read := ReadFile(readFault);
      if read.Err? {
        return false;
      }
      var providers := read.value;
      providers := Replace(providers, p);
      ok := WriteFile(providers, writeFault);
    }

    method Delete(name: Text, readFault: bool, writeFault: WriteFault) returns (ok: bool)
      modifies this
      ensures ok <==> !readFault && AllValid(old(records)) && Committed(writeFault)
      ensures records == if ok then Deleted(old(records), name) else old(records)
    {
      var read := ReadFile(readFault);
      if read.Err? {
        return false;
      }
      var providers := read.value;
      var filtered := [];
      for i := 0 to |providers|
        invariant filtered == Deleted(providers[..i], name)
      {
        assert providers[..i + 1][..i] == providers[..i];
        if providers[i].name != name {
          filtered := filtered + [providers[i]];
        }
      }
      assert providers[..|providers|] == providers;
      ok := WriteFile(filtered, writeFault);
    }

    method FindBy(matches: Record -> bool, readFault: bool) returns (r: Result<Option<Record>>)
      ensures r.Err? <==> readFault || !AllValid(records)
      ensures r.Ok? && r.value.Some? ==> r.value.value in records && matches(r.value.value)
      ensures r.Ok? && r.value.None? ==> forall p :: p in records ==> !matches(p)
    {
      var read := ReadFile(readFault);
      if read.Err? {
        return Err;
      }
      for i := 0 to |records|
        invariant forall j :: 0 <= j < i ==> !matches(records[j])
      {
        if matches(records[i]) {
          return Ok(Some(records[i]));
        }
      }
      return Ok(None);
    }
  }

  /** `s'` is `s` with the record of `p`'s name replaced where it stands, or `p` added at the end. */
  ghost predicate PutInPlace(s: Table, s': Table, p: Record) {
    || (exists i :: 0 <= i < |s| && s[i].name == p.name && s' == s[i := p])
    || ((forall q :: q in s ==> q.name != p.name) && s' == s + [p])
  }

  lemma {:induction false} SavedInPlace(s: Table, p: Record)
    ensures PutInPlace(s, Saved(s, p), p)
  {
    if s != [] && s[0].name == p.name {
      assert s[0 := p] == [p] + s[1..];
    } else if s != [] {
      SavedInPlace(s[1..], p);
      assert s == [s[0]] + s[1..];
      if i :| 0 <= i < |s[1..]| && s[1..][i].name == p.name && Saved(s[1..], p) == s[1..][i := p] {
        assert s[i + 1 := p] == [s[0]] + s[1..][i := p];
      } else {
        assert Saved(s, p) == s + [p];
      }
    }
  }

  /** `left` are the records of `s` at the positions `kept`, in order: those not called `name`. */
  ghost predicate LeftAt(s: Table, name: Text, left: Table, kept: seq<nat>) {
    && |kept| == |left| && (forall i, j :: 0 <= i < j < |kept| ==> kept[i] < kept[j])
    && (forall k :: 0 <= k < |kept| ==> kept[k] < |s| && left[k] == s[kept[k]])
    && (forall i :: 0 <= i < |s| ==> (i in kept <==> s[i].name != name))
  }

  lemma OneMoreLeft(s: Table, name: Text, left: Table, kept: seq<nat>, p: Record)
    requires LeftAt(s, name, left, kept) && p.name != name
    ensures LeftAt(s + [p], name, left + [p], kept + [|s|])
  {
    assert forall i :: i in kept + [|s|] <==> i in kept || i == |s|;
  }

  lemma OneMoreDropped(s: Table, name: Text, left: Table, kept: seq<nat>, p: Record)
    requires LeftAt(s, name, left, kept) && p.name == name
    ensures LeftAt(s + [p], name, left, kept)
  {
    assert |s| !in kept;
  }

  /** What a deletion leaves: every record of another name, in its order. */
  lemma {:induction false} DeletedExactly(s: Table, name: Text) returns (kept: seq<nat>)
    ensures LeftAt(s, name, Deleted(s, name), kept)
  {
    kept := [];
    if s != [] {
      var n := |s| - 1;
      kept := DeletedExactly(s[..n], name);
      assert s == s[..n] + [s[n]];
      if s[n].name != name {
        OneMoreLeft(s[..n], name, Deleted(s[..n], name), kept, s[n]);
        kept := kept + [n];
      } else {
        OneMoreDropped(s[..n], name, Deleted(s[..n], name), kept, s[n]);
      }
    }
  }

  // ----------------------------------------------------------------- agreement

  ghost predicate UniqueNames(s: Table) {
    forall i, j :: 0 <= i < j < |s| ==> s[i].name != s[j].name
  }

  ghost predicate UniqueIds(s: Table) {
    forall p, q :: p in s && q in s && p.id == q.id ==> p.name == q.name
  }

  ghost predicate Serves(s: Table, serviceType: Text, name: Text) {
    exists p :: p in s && p.serviceType == serviceType && p.name == name
  }

  /** The slots are exactly service type to name over the stored records, whose names and
      ids are unique. */
  ghost predicate Agree(slots: Slots, s: Table) {
    && AllValid(s) && UniqueNames(s) && UniqueIds(s)
    && (forall p :: p in s ==> p.serviceType in slots && slots[p.serviceType] == p.name)
    && (forall t :: t in slots ==> Serves(s, t, slots[t]))
  }

  /** No other provider's record has this service type. */
  ghost predicate TypeFree(s: Table, serviceType: Text, name: Text) {
    forall q :: q in s && q.serviceType == serviceType ==> q.name == name
  }

  lemma SameName(s: Table, p: Record, q: Record)
    requires UniqueNames(s) && p in s && q in s && p.name == q.name
    ensures p == q
  {
    var i :| 0 <= i < |s| && s[i] == p;
    var j :| 0 <= j < |s| && s[j] == q;
    assert i == j;
  }

  /** In agreement, the registry refuses a type exactly when another record has it. */
  lemma HeldMeansServed(slots: Slots, s: Table, serviceType: Text, name: Text)
    requires Agree(slots, s)
    ensures HeldByOther(slots, serviceType, name) <==> !TypeFree(s, serviceType, name)
  {
    if HeldByOther(slots, serviceType, name) {
      var p :| p in s && p.serviceType == serviceType && p.name == slots[serviceType];
    }
  }

  /** In agreement, a type another provider does not serve is occupied only by the record
      that has it. */
  lemma FreeWhenUnserved(slots: Slots, s: Table, serviceType: Text, name: Text)
    requires Agree(slots, s) && TypeFree(s, serviceType, name)
    ensures serviceType in slots <==> Serves(s, serviceType, name)
    ensures forall p :: p in s && p.name == name ==> (serviceType in slots <==> p.serviceType == serviceType)
  {
    if serviceType in slots {
      var p :| p in s && p.serviceType == serviceType && p.name == slots[serviceType];
      forall q | q in s && q.name == name ensures q.serviceType == serviceType {
        SameName(s, p, q);
      }
    }
  }

  /** The records determine the registry. */
  lemma AgreementIsUnique(a: Slots, b: Slots, s: Table)
    requires Agree(a, s) && Agree(b, s)
    ensures a == b
  {
    forall t | t in a ensures t in b && b[t] == a[t] {
      assert Serves(s, t, a[t]);
    }
    forall t | t in b ensures t in a {
      assert Serves(s, t, b[t]);
    }
  }

  lemma {:induction false} SavedMembers(s: Table, p: Record)
    requires UniqueNames(s)
    ensures UniqueNames(Saved(s, p))
    ensures forall q :: q in Saved(s, p) <==> q == p || (q in s && q.name != p.name)
  {
    if s != [] {
      assert s == [s[0]] + s[1..];
      assert forall q :: q in s[1..] ==> q.name != s[0].name;
      if s[0].name != p.name {
        SavedMembers(s[1..], p);
        var rest := Saved(s[1..], p);
        forall j | 0 <= j < |rest| ensures rest[j].name != s[0].name {
          assert rest[j] in rest;
        }
      }
    }
  }

  lemma AgreeAfterCreate(slots: Slots, s: Table, p: Record)
    requires Agree(slots, s) && ValidRecord(p)
    requires !Named(s, p.name) && TypeFree(s, p.serviceType, p.name)
    requires forall q :: q in s ==> q.id != p.id
    ensures p.serviceType !in slots
    ensures Agree(slots[p.serviceType := p.name], Saved(s, p))
  {
    SavedMembers(s, p);
    FreeWhenUnserved(slots, s, p.serviceType, p.name);
    var slots' := slots[p.serviceType := p.name];
    forall t | t in slots' ensures Serves(Saved(s, p), t, slots'[t]) {
      if t in slots {
        assert Serves(s, t, slots[t]);
      }
    }
  }

  /** The registry after an update that changes the service type or keeps it. */
  function Reslotted(slots: Slots, name: Text, from: Text, to: Text): Slots {
    if from == to then slots else Moved(slots, name, from, to)
  }

  lemma AgreeAfterUpdate(slots: Slots, s: Table, old_: Record, p: Record)
    requires Agree(slots, s) && ValidRecord(p)
    requires old_ in s && p.name == old_.name && p.id == old_.id
    requires TypeFree(s, p.serviceType, p.name)
    ensures Agree(Reslotted(slots, p.name, old_.serviceType, p.serviceType), Saved(s, p))
  {
    SavedMembers(s, p);
    var s' := Saved(s, p);
    var slots' := Reslotted(slots, p.name, old_.serviceType, p.serviceType);
    forall q | q in s' ensures q.serviceType in slots' && slots'[q.serviceType] == q.name {
      if q != p {
        assert q.serviceType != old_.serviceType;
      }
    }
    forall t | t in slots' ensures Serves(s', t, slots'[t]) {
      if t != p.serviceType {
        assert Serves(s, t, slots[t]);
        var q :| q in s && q.serviceType == t && q.name == slots[t];
        if q.name == p.name {
          SameName(s, q, old_);
        }
        assert q in s';
      }
    }
    forall q, r | q in s' && r in s' && q.id == r.id ensures q.name == r.name {
      assert q == p || q in s;
      assert r == p || r in s;
    }
  }

  // ------------------------------------------------------- the one-table reading

  datatype Input = Input(
    name: Text, serviceType: Text, endpoint: Text, schemaVersion: Text, details: nat, requestedId: Option<Text>)

  /** What the environment decides during one call: which reads and writes fail, the id a
      generator would return, and the time. */
  datatype Oracle = Oracle(
    findFault: bool, idFault: bool, readFault: bool, writeFault: WriteFault, newId: Text, now: nat)

  datatype Outcome = Created(record: Record) | Updated(record: Record) | Conflict | Invalid | StoreError {
    predicate Failed() { Conflict? || Invalid? || StoreError? }
  }

  function Lookup(s: Table, name: Text): Option<Record> {
    if s == [] then None else if s[0].name == name then Some(s[0]) else Lookup(s[1..], name)
  }

  lemma {:induction false} LookupExact(s: Table, name: Text)
    ensures Lookup(s, name).Some? ==> Lookup(s, name).value in s && Lookup(s, name).value.name == name
    ensures Lookup(s, name).None? <==> !Named(s, name)
  {
    if s != [] {
      assert s == [s[0]] + s[1..];
      LookupExact(s[1..], name);
    }
  }

  /** Generated ids are fresh and the clock is set. */
  ghost predicate Sound(s: Table, o: Oracle) {
    o.newId.Text? && o.now != 0 && forall p :: p in s ==> p.id != o.newId
  }

  /** The record a successful call leaves: id, kind and creation time are kept on update. */
  function NewRecord(s: Table, inp: Input, o: Oracle): Record {
    var e := Lookup(s, inp.name);
    if e.Some? then
      e.value.(endpoint := inp.endpoint, serviceType := inp.serviceType, schemaVersion := inp.schemaVersion,
               details := inp.details, updateTime := o.now)
    else
      Record(if inp.requestedId.Some? then inp.requestedId.value else o.newId, inp.name, inp.serviceType,
             inp.schemaVersion, External, o.now, o.now, inp.endpoint, inp.details)
  }

  ghost predicate IdTaken(s: Table, id: Text) { exists p :: p in s && p.id == id }

  /** The identity the caller asserts contradicts the stored records. */
  ghost predicate IdConflict(s: Table, inp: Input) {
    inp.requestedId.Some? &&
      var e := Lookup(s, inp.name);
      if e.Some? then inp.requestedId.value != e.value.id else IdTaken(s, inp.requestedId.value)
  }

  ghost predicate EmptyIdRequested(s: Table, inp: Input) {
    Lookup(s, inp.name).None? && inp.requestedId == Some(Empty)
  }

  predicate IdLookupFails(s: Table, inp: Input, o: Oracle) {
    Lookup(s, inp.name).None? && inp.requestedId.Some? && o.idFault
  }

  ghost predicate IdAssignable(s: Table, inp: Input, o: Oracle) {
    !IdLookupFails(s, inp, o) && !IdConflict(s, inp) && !EmptyIdRequested(s, inp)
  }

  ghost predicate Savable(s: Table, inp: Input, o: Oracle) {
    !o.readFault && Committed(o.writeFault) && ValidRecord(NewRecord(s, inp, o))
  }

  /** When a call succeeds, said of the stored records alone. */
  ghost predicate Accepts(s: Table, inp: Input, o: Oracle) {
    && !o.findFault
    && IdAssignable(s, inp, o)
    && TypeFree(s, inp.serviceType, inp.name)
    && Savable(s, inp, o)
  }

  /** When a call is refused as a conflict: the lookups worked, and the asserted identity or the
      service type is taken. */
  ghost predicate Conflicts(s: Table, inp: Input, o: Oracle) {
    && !o.findFault && !EmptyIdRequested(s, inp) && !IdLookupFails(s, inp, o)
    && (IdConflict(s, inp) || !TypeFree(s, inp.serviceType, inp.name))
  }

  /** When a call fails in the store: in a lookup it makes, or in the save nothing else prevents. */
  ghost predicate StoreFails(s: Table, inp: Input, o: Oracle) {
    || o.findFault
    || (!EmptyIdRequested(s, inp) && IdLookupFails(s, inp, o))
    || (IdAssignable(s, inp, o) && TypeFree(s, inp.serviceType, inp.name) && !Savable(s, inp, o))
  }

  ghost function Next(s: Table, inp: Input, o: Oracle): Table {
    if Accepts(s, inp, o) then Saved(s, NewRecord(s, inp, o)) else s
  }

  lemma LookupOf(s: Table, p: Record)
    requires UniqueNames(s) && p in s
    ensures Lookup(s, p.name) == Some(p)
  {
    LookupExact(s, p.name);
    SameName(s, Lookup(s, p.name).value, p);
  }

  /** What a successful call leaves: one record of the name, carrying the caller's data and the
      time, with the old identity if there was one and a new one otherwise; all other records
      are where and what they were. */
  ghost predicate Stored(s: Table, s': Table, inp: Input, o: Oracle, p: Record) {
    && p.name == inp.name && p.endpoint == inp.endpoint && p.serviceType == inp.serviceType
    && p.schemaVersion == inp.schemaVersion && p.details == inp.details && p.updateTime == o.now
    && (forall e :: e in s && e.name == inp.name ==> p.id == e.id && p.kind == e.kind && p.createTime == e.createTime)
    && ((forall e :: e in s ==> e.name != inp.name) ==>
          && p.kind.External? && p.createTime == o.now
          && p.id == if inp.requestedId.Some? then inp.requestedId.value else o.newId)
    && PutInPlace(s, s', p)
    && (forall q :: q in s' && q.name == inp.name ==> q == p)
  }

  lemma NewRecordIsStored(s: Table, inp: Input, o: Oracle)
    requires UniqueNames(s)
    ensures Stored(s, Saved(s, NewRecord(s, inp, o)), inp, o, NewRecord(s, inp, o))
  {
    var p := NewRecord(s, inp, o);
    LookupExact(s, inp.name);
    SavedInPlace(s, p);
    SavedMembers(s, p);
    forall e | e in s && e.name == inp.name ensures p.id == e.id && p.kind == e.kind && p.createTime == e.createTime {
      LookupOf(s, e);
    }
  }

  ghost predicate TypeTaken(s: Table, inp: Input) {
    exists q :: q in s && q.serviceType == inp.serviceType && q.name != inp.name
  }

  /** The caller asserts an id other than the stored one of its name. */
  ghost predicate WrongId(s: Table, inp: Input) {
    exists e :: e in s && e.name == inp.name && inp.requestedId.Some? && inp.requestedId.value != e.id
  }

  /** The caller of a new name asserts an id that some record has. */
  ghost predicate UsedId(s: Table, inp: Input) {
    exists q :: q in s && inp.requestedId.Some? && q.id == inp.requestedId.value
  }

  ghost predicate IsNew(s: Table, inp: Input) { forall e :: e in s ==> e.name != inp.name }

  /** The lookups a call makes all work. */
  ghost predicate LookupsWork(s: Table, inp: Input, o: Oracle) {
    !o.findFault && (IsNew(s, inp) && inp.requestedId.Some? ==> !o.idFault)
  }

  /** When each outcome comes, spelled out over the records: the id checks, the type check, the
      fields a record must have, and the faults. */
  lemma OutcomesSpelledOut(s: Table, inp: Input, o: Oracle)
    requires Proper(s) && Sound(s, o)
    ensures Conflicts(s, inp, o) <==>
            && LookupsWork(s, inp, o) && !(IsNew(s, inp) && inp.requestedId == Some(Empty))
            && (TypeTaken(s, inp) || WrongId(s, inp) || (IsNew(s, inp) && UsedId(s, inp)))
    ensures Accepts(s, inp, o) <==>
            && LookupsWork(s, inp, o) && !o.readFault
            && (o.writeFault.NoFault? || o.writeFault.OpenDir? || o.writeFault.SyncDir?)
            && inp.name.Text? && inp.serviceType.Text? && inp.schemaVersion.Text?
            && !TypeTaken(s, inp) && !WrongId(s, inp)
            && (IsNew(s, inp) && inp.requestedId.Some? ==> inp.requestedId.value.Text? && !UsedId(s, inp))
  {
    LookupExact(s, inp.name);
    assert IsNew(s, inp) <==> Lookup(s, inp.name).None?;
    assert TypeTaken(s, inp) <==> !TypeFree(s, inp.serviceType, inp.name);
    IdConflictMeans(s, inp);
    RecordIsComplete(s, inp, o);
  }

  lemma IdConflictMeans(s: Table, inp: Input)
    requires UniqueNames(s)
    ensures IdConflict(s, inp) <==> WrongId(s, inp) || (IsNew(s, inp) && UsedId(s, inp))
  {
    LookupExact(s, inp.name);
    forall e | e in s && e.name == inp.name ensures Lookup(s, inp.name) == Some(e) {
      LookupOf(s, e);
    }
  }

  lemma RecordIsComplete(s: Table, inp: Input, o: Oracle)
    requires AllValid(s) && Sound(s, o)
    ensures ValidRecord(NewRecord(s, inp, o)) <==>
            && inp.name.Text? && inp.serviceType.Text? && inp.schemaVersion.Text?
            && (IsNew(s, inp) && inp.requestedId.Some? ==> inp.requestedId.value.Text?)
  {
    LookupExact(s, inp.name);
  }

  class ProviderService {
    const store: FileStore
    const registry: Registry

    ghost predicate Valid()
      reads store, registry
    {
      Agree(registry.slots, store.records)
    }

    constructor (store: FileStore, registry: Registry)
      requires Agree(registry.slots, store.records)
      ensures Valid() && this.store == store && this.registry == registry
    {
      this.store := store;
      this.registry := registry;
    }

    method UpdateRegistration(existing: Record, inp: Input, o: Oracle) returns (r: Outcome)
      requires Valid() && existing in store.records && existing.name == inp.name && o.now != 0
      modifies store, registry
      ensures Valid()
      ensures r.Updated? || r.Conflict? || r.StoreError?
      ensures r.Conflict? <==> !TypeFree(old(store.records), inp.serviceType, inp.name)
      ensures r.Updated? <==> TypeFree(old(store.records), inp.serviceType, inp.name) && Savable(old(store.records), inp, o)
      ensures r.Updated? ==> r.record == NewRecord(old(store.records), inp, o)
      ensures r.Updated? ==> store.records == Saved(old(store.records), r.record)
      ensures r.Updated? ==> Stored(old(store.records), store.records, inp, o, r.record)
      ensures r.Failed() ==> store.records == old(store.records) && registry.slots == old(registry.slots)
    {
      ghost var (s, slots) := (store.records, registry.slots);
      LookupOf(s, existing);
      HeldMeansServed(slots, s, inp.serviceType, inp.name);
      var oldServiceType := existing.serviceType;
      if oldServiceType != inp.serviceType {
        var moved := registry.Move(existing.name, oldServiceType, inp.serviceType);
        if !moved {
          return Conflict;
        }
      }
      var updated := existing.(endpoint := inp.endpoint, serviceType := inp.serviceType,
        schemaVersion := inp.schemaVersion, details := inp.details, updateTime := o.now);
      var saved := store.Save(updated, o.readFault, o.writeFault);
      if !saved {
        if oldServiceType != inp.serviceType {
          FreeWhenUnserved(slots, s, inp.serviceType, inp.name);
          MoveBackRestores(slots, existing.name, oldServiceType, inp.serviceType);
          var _ := registry.Move(existing.name, inp.serviceType, oldServiceType);
        }
        return StoreError;
      }
      AgreeAfterUpdate(slots, s, existing, updated);
      NewRecordIsStored(s, inp, o);
      return Updated(updated);
    }

    method AssignProviderId(inp: Input, o: Oracle) returns (r: Result<Text>, failure: Outcome)
      requires Valid() && !Named(store.records, inp.name)
      ensures r.Ok? <==> IdAssignable(store.records, inp, o)
      ensures r.Ok? ==> r.value == if inp.requestedId.Some? then inp.requestedId.value else o.newId
      ensures r.Err? ==> failure.Failed()
      ensures r.Err? ==> (failure.Invalid? <==> EmptyIdRequested(store.records, inp))
      ensures r.Err? && !EmptyIdRequested(store.records, inp) ==>
                failure == if IdLookupFails(store.records, inp, o) then StoreError else Conflict
    {
      LookupExact(store.records, inp.name);
      if inp.requestedId.None? {
        return Ok(o.newId), Invalid;
      }
      var id := inp.requestedId.value;
      if id.Empty? {
        return Err, Invalid;
      }
      var holder := store.FindBy((p: Record) => p.id == id, o.idFault);
      if holder.Err? {
        return Err, StoreError;
      }
      if holder.value.Some? {
        return Err, Conflict;
      }
      return Ok(id), Invalid;
    }

    method CreateRegistration(id: Text, inp: Input, o: Oracle) returns (r: Outcome)
      requires Valid() && !Named(store.records, inp.name) && Sound(store.records, o)
      requires !IdTaken(store.records, id)
      requires id == if inp.requestedId.Some? then inp.requestedId.value else o.newId
      modifies store, registry
      ensures Valid()
      ensures r.Created? || r.Conflict? || r.StoreError?
      ensures r.Conflict? <==> !TypeFree(old(store.records), inp.serviceType, inp.name)
      ensures r.Created? <==> TypeFree(old(store.records), inp.serviceType, inp.name) && Savable(old(store.records), inp, o)
      ensures r.Created? ==> r.record == NewRecord(old(store.records), inp, o)
      ensures r.Created? ==> store.records == Saved(old(store.records), r.record)
      ensures r.Created? ==> Stored(old(store.records), store.records, inp, o, r.record)
      ensures r.Failed() ==> store.records == old(store.records) && registry.slots == old(registry.slots)
    {
      ghost var (s, slots) := (store.records, registry.slots);
      LookupExact(s, inp.name);
      HeldMeansServed(slots, s, inp.serviceType, inp.name);
      var claimed := registry.Claim(inp.name, inp.serviceType);
      if !claimed {
        return Conflict;
      }
      var sp := Record(id, inp.name, inp.serviceType, inp.schemaVersion, External, o.now, o.now,
                       inp.endpoint, inp.details);
      FreeWhenUnserved(slots, s, inp.serviceType, inp.name);
      var saved := store.Save(sp, o.readFault, o.writeFault);
      if !saved {
        ReleaseRestores(slots, inp.name, inp.serviceType);
        registry.Release(inp.serviceType);
        return StoreError;
      }
      AgreeAfterCreate(slots, s, sp);
      NewRecordIsStored(s, inp, o);
      return Created(sp);
    }

    /** Create or update.  The pair of registry and store acts as one table of records, and
        a call that fails leaves both as they were. */
    method Register(inp: Input, o: Oracle) returns (r: Outcome)
      requires Valid() && Sound(store.records, o)
      modifies store, registry
      ensures Valid()
      ensures store.records == Next(old(store.records), inp, o)
      ensures r.Failed() <==> !Accepts(old(store.records), inp, o)
      ensures r.Failed() ==> store.records == old(store.records) && registry.slots == old(registry.slots)
      ensures !r.Failed() ==> r.record == NewRecord(old(store.records), inp, o)
      ensures !r.Failed() ==> (r.Updated? <==> Named(old(store.records), inp.name))
      ensures r.Invalid? <==> !o.findFault && EmptyIdRequested(old(store.records), inp)
      ensures !r.Failed() ==> Stored(old(store.records), store.records, inp, o, r.record)
      ensures r.Conflict? <==> Conflicts(old(store.records), inp, o)
      ensures r.StoreError? <==> StoreFails(old(store.records), inp, o)
    {
      ghost var s := store.records;
      LookupExact(s, inp.name);
      var existing := store.FindBy((p: Record) => p.name == inp.name, o.findFault);
      if existing.Err? {
        return StoreError;
      }
      if existing.value.Some? {
        LookupOf(s, existing.value.value);
        if inp.requestedId.Some? && inp.requestedId.value != existing.value.value.id {
          return Conflict;
        }
        r := UpdateRegistration(existing.value.value, inp, o);
        return;
      }
      r := RegisterNew(inp, o);
    }

    /** The part of `Register` for a name that is not stored yet. */
    method RegisterNew(inp: Input, o: Oracle) returns (r: Outcome)
      requires Valid() && Sound(store.records, o) && !o.findFault && !Named(store.records, inp.name)
      modifies store, registry
      ensures Valid()
      ensures store.records == Next(old(store.records), inp, o)
      ensures r.Failed() <==> !Accepts(old(store.records), inp, o)
      ensures r.Failed() ==> store.records == old(store.records) && registry.slots == old(registry.slots)
      ensures !r.Failed() ==> r.Created? && r.record == NewRecord(old(store.records), inp, o)
      ensures !r.Failed() ==> Stored(old(store.records), store.records, inp, o, r.record)
      ensures r.Invalid? <==> EmptyIdRequested(old(store.records), inp)
      ensures r.Conflict? <==> Conflicts(old(store.records), inp, o)
      ensures r.StoreError? <==> StoreFails(old(store.records), inp, o)
    {
      LookupExact(store.records, inp.name);
      var id, failure := AssignProviderId(inp, o);
      if id.Err? {
        return failure;
      }
      r := CreateRegistration(id.value, inp, o);
    }
  }

  // --------------------------------------------------------------- whole runs

  datatype Call = Call(inp: Input, o: Oracle)

  ghost function Run(s: Table, calls: seq<Call>): Table
    decreases |calls|
  {
    if calls == [] then s else Run(Next(s, calls[0].inp, calls[0].o), calls[1..])
  }

  ghost predicate SoundRun(s: Table, calls: seq<Call>)
    decreases |calls|
  {
    calls == [] || (Sound(s, calls[0].o) && SoundRun(Next(s, calls[0].inp, calls[0].o), calls[1..]))
  }

  /** Names, ids and service types identify records. */
  ghost predicate Proper(s: Table) {
    AllValid(s) && UniqueNames(s) && UniqueIds(s) && forall p :: p in s ==> TypeFree(s, p.serviceType, p.name)
  }

  lemma AgreeIsProper(slots: Slots, s: Table)
    requires Agree(slots, s)
    ensures Proper(s)
  {
  }

  /** Everything a provider is identified by survives. */
  ghost predicate SameIdentity(p: Record, q: Record) {
    p.name == q.name && p.id == q.id && p.kind == q.kind && p.createTime == q.createTime
  }

  ghost predicate Continues(s: Table, s': Table) {
    forall p :: p in s ==> exists q :: q in s' && SameIdentity(p, q)
  }

  lemma NextKeeps(s: Table, inp: Input, o: Oracle)
    requires Proper(s) && Sound(s, o)
    ensures Proper(Next(s, inp, o)) && Continues(s, Next(s, inp, o))
  {
    var s' := Next(s, inp, o);
    if Accepts(s, inp, o) {
      var p := NewRecord(s, inp, o);
      LookupExact(s, inp.name);
      SavedMembers(s, p);
      forall q | q in s ensures exists q' :: q' in s' && SameIdentity(q, q') {
        if q.name == p.name {
          LookupOf(s, q);
          assert SameIdentity(q, p) && p in s';
        } else {
          assert SameIdentity(q, q) && q in s';
        }
      }
      NewIdIsUnused(s, inp, o);
      assert UniqueIds(s');
      forall q | q in s' ensures TypeFree(s', q.serviceType, q.name) {
        if q != p {
          assert TypeFree(s, q.serviceType, q.name);
          assert q.serviceType == p.serviceType ==> q.name == p.name;
        }
      }
    } else {
      assert forall q :: q in s ==> SameIdentity(q, q);
    }
  }

  lemma NewIdIsUnused(s: Table, inp: Input, o: Oracle)
    requires UniqueNames(s) && UniqueIds(s) && Sound(s, o) && Accepts(s, inp, o)
    ensures forall q :: q in s && q.id == NewRecord(s, inp, o).id ==> q.name == inp.name
    ensures NewRecord(s, inp, o).name == inp.name
  {
    LookupExact(s, inp.name);
  }

  /** After any sequence of calls with any failures the table is still proper, and every
      provider ever registered is still there with the same id and creation time. */
  lemma {:induction false} RunKeeps(s: Table, calls: seq<Call>)
    requires Proper(s) && SoundRun(s, calls)
    ensures Proper(Run(s, calls)) && Continues(s, Run(s, calls))
    decreases |calls|
  {
    if calls == [] {
      assert forall p :: p in s ==> SameIdentity(p, p);
    } else {
      var s' := Next(s, calls[0].inp, calls[0].o);
      NextKeeps(s, calls[0].inp, calls[0].o);
      RunKeeps(s', calls[1..]);
      forall p | p in s ensures exists r :: r in Run(s, calls) && SameIdentity(p, r) {
        var q :| q in s' && SameIdentity(p, q);
        var r :| r in Run(s', calls[1..]) && SameIdentity(q, r);
        assert r in Run(s, calls) && SameIdentity(p, r);
      }
    }
  }

  /** The service handling one call after another, as its mutex makes it. */
  method ServeAll(service: ProviderService, calls: seq<Call>)
    requires service.Valid() && SoundRun(service.store.records, calls)
    modifies service.store, service.registry
    ensures service.Valid()
    ensures service.store.records == Run(old(service.store.records), calls)
    ensures Proper(service.store.records) && Continues(old(service.store.records), service.store.records)
  {
    AgreeIsProper(service.registry.slots, service.store.records);
    RunKeeps(service.store.records, calls);
    for i := 0 to |calls|
      invariant service.Valid() && SoundRun(service.store.records, calls[i..])
      invariant Run(service.store.records, calls[i..]) == Run(old(service.store.records), calls)
    {
      assert calls[i..][1..] == calls[i + 1..];
      var _ := service.Register(calls[i].inp, calls[i].o);
    }
  }
}
