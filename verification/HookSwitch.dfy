/**
 The native hook over its three shared stores: one run of `main` reads, retires and writes markers in
 a fixed order. Runs of any processes may follow each other in any order.
 */
module HookSwitch {
  import opened Options

  datatype ArmProvenance = SessionStart | CwdChanged | FileChanged

  function ArmProvenanceFor(event: string): Option<ArmProvenance> {
    if event == "SessionStart" then Some(SessionStart)
    else if event == "CwdChanged" then Some(CwdChanged)
    else if event == "FileChanged" then Some(FileChanged)
    else None
  }

  /** Records by native id, sender markers by owner pid, receiver markers by garden (their owner pid). */
  datatype Stores = Stores(records: map<string, string>, senders: map<nat, string>, receivers: map<string, nat>)

  /**
   One hook run: its envelope, its resolved owner pid (None without launch provenance or a plausible
   parent), the id a new record would get, and which of its store calls succeed.
   */
  datatype HookRun = HookRun(event: string, session: string, transcript: string, minted: string, storeOk: bool,
                             owner: Option<nat>, removeOk: bool, senderOk: bool, mailboxOk: bool, receiverOk: bool)

  /** `upsertMetaSession`: attach by native id, or publish exclusively under the minted id. */
  function Upsert(records: map<string, string>, r: HookRun): Option<string> {
    if !r.storeOk then None
    else if r.session in records then Some(records[r.session])
    else if r.minted in records.Values then None
    else Some(r.minted)
  }

  /** The garden this run registers, or None when it stops before that. */
  function Garden(s: Stores, r: HookRun): Option<string> {
    if r.session == "" || r.transcript == "" then None else Upsert(s.records, r)
  }

  function Previous(s: Stores, r: HookRun, pid: nat): Option<string> {
    if ArmProvenanceFor(r.event).Some? && pid in s.senders then Some(s.senders[pid]) else None
  }

  /** `removeMetaReceiverMarker`: only a marker this pid owns, and only if the removal succeeds. */
  function RemoveReceiver(receivers: map<string, nat>, garden: string, pid: nat, ok: bool): map<string, nat> {
    if ok && garden in receivers && receivers[garden] == pid then receivers - {garden} else receivers
  }

  function Retire(s: Stores, r: HookRun, garden: string, pid: nat): Stores {
    match Previous(s, r, pid)
    case Some(previous) =>
      if previous != garden then s.(receivers := RemoveReceiver(s.receivers, previous, pid, r.removeOk)) else s
    case None => s
  }

  function Advertise(s: Stores, r: HookRun, garden: string): Stores {
    if r.event == "UserPromptSubmit" || !r.mailboxOk then s
    else if ArmProvenanceFor(r.event).None? || r.owner.None? || !r.receiverOk then s
    else s.(receivers := s.receivers[garden := r.owner.value])
  }

  /** `main` */
  function Step(s: Stores, r: HookRun): Stores {
    match Garden(s, r)
    case None => s
    case Some(garden) =>
      var born := s.(records := s.records[r.session := garden]);
      var joined :=
        match r.owner
        case None => born
        case Some(pid) =>
          var retired := Retire(born, r, garden, pid);
          if r.senderOk then retired.(senders := retired.senders[pid := garden]) else retired;
      Advertise(joined, r, garden)
  }

  class Hook {
    var records: map<string, string>
    var senders: map<nat, string>
    var receivers: map<string, nat>

    function View(): Stores
      reads this
    {
      Stores(records, senders, receivers)
    }

    constructor ()
      ensures View() == Stores(map[], map[], map[])
    {
      records, senders, receivers := map[], map[], map[];
    }

    method RunHook(r: HookRun)
      modifies this
      ensures View() == Step(old(View()), r)
    {
      if r.session == "" || r.transcript == "" { return; }
      var upserted := Upsert(records, r);
      if upserted.None? { return; }
      var garden := upserted.value;
      records := records[r.session := garden];
      if r.owner.Some? {
        var pid := r.owner.value;
        // Read before the write below overwrites it.
        var previous := Previous(View(), r, pid);
        if previous.Some? && previous.value != garden {
          receivers := RemoveReceiver(receivers, previous.value, pid, r.removeOk);
        }
        if r.senderOk { senders := senders[pid := garden]; }
      }
      if r.event == "UserPromptSubmit" { return; }
      if !r.mailboxOk { return; }
      if ArmProvenanceFor(r.event).Some? && r.owner.Some? && r.receiverOk {
        receivers := receivers[garden := r.owner.value];
      }
    }
  }

  // ---------------------------------------------------------------- the invariant of the stores

  /** A receiver marker for a garden is owned by a pid whose sender marker names that garden. */
  predicate Backed(s: Stores) {
    forall g <- s.receivers :: s.receivers[g] in s.senders && s.senders[s.receivers[g]] == g
  }

  /** A process then advertises at most one garden. */
  lemma OneGardenPerProcess(s: Stores, g: string, g': string)
    requires Backed(s) && g in s.receivers && g' in s.receivers && s.receivers[g] == s.receivers[g']
    ensures g == g'
  {
    assert s.senders[s.receivers[g]] == g;
  }

  /** The process still advertises another garden than the one this run registers. */
  predicate Stale(s: Stores, garden: string, pid: nat) {
    pid in s.senders && s.senders[pid] != garden
    && s.senders[pid] in s.receivers && s.receivers[s.senders[pid]] == pid
  }

  /**
   What a run needs to keep the stores backed: it does not move the sender marker off an advertised
   garden it cannot retire, and it does not advertise a garden its sender marker could not be set to.
   */
  predicate Keeps(s: Stores, r: HookRun) {
    match Garden(s, r)
    case None => true
    case Some(garden) =>
      r.owner.None? ||
      var pid := r.owner.value;
      var arms := ArmProvenanceFor(r.event).Some?;
      if r.senderOk then Stale(s, garden, pid) ==> arms && r.removeOk
      else arms && r.mailboxOk && r.receiverOk ==> pid in s.senders && s.senders[pid] == garden
  }

  lemma StaleStays(s: Stores, r: HookRun, garden: string, pid: nat)
    requires Backed(s) && Garden(s, r) == Some(garden) && r.owner == Some(pid)
    requires r.senderOk && Stale(s, garden, pid) && !(ArmProvenanceFor(r.event).Some? && r.removeOk)
    ensures !Backed(Step(s, r))
  {
    var g := s.senders[pid];
    assert g in Step(s, r).receivers && Step(s, r).receivers[g] == pid;
  }

  lemma UnbackedWrite(s: Stores, r: HookRun, garden: string, pid: nat)
    requires Backed(s) && Garden(s, r) == Some(garden) && r.owner == Some(pid)
    requires !r.senderOk && ArmProvenanceFor(r.event).Some? && r.mailboxOk && r.receiverOk
    requires !(pid in s.senders && s.senders[pid] == garden)
    ensures !Backed(Step(s, r))
  {
    var s' := Step(s, r);
    assert garden in s'.receivers && s'.receivers[garden] == pid;
  }

  /** From backed stores a run leaves backed stores exactly when `Keeps` holds before it. */
  lemma StepBackedExactly(s: Stores, r: HookRun)
    requires Backed(s)
    ensures Backed(Step(s, r)) <==> Keeps(s, r)
  {
    if Garden(s, r).Some? && r.owner.Some? && !Keeps(s, r) {
      var garden, pid := Garden(s, r).value, r.owner.value;
      if r.senderOk {
        StaleStays(s, r, garden, pid);
      } else {
        UnbackedWrite(s, r, garden, pid);
      }
    }
  }

  function Runs(s: Stores, rs: seq<HookRun>): Stores
    decreases |rs|
  {
    if rs == [] then s else Runs(Step(s, rs[0]), rs[1..])
  }

  /**
   The working assumptions on a run: sender writes and removals succeed, and an event that cannot arm
   names the garden its process last established (or comes from a process that established none).
   */
  predicate Orderly(s: Stores, r: HookRun) {
    && r.senderOk && r.removeOk
    && (ArmProvenanceFor(r.event).Some? || Garden(s, r).None? || r.owner.None?
        || r.owner.value !in s.senders || s.senders[r.owner.value] == Garden(s, r).value)
  }

  predicate AllOrderly(s: Stores, rs: seq<HookRun>)
    decreases |rs|
  {
    rs == [] || (Orderly(s, rs[0]) && AllOrderly(Step(s, rs[0]), rs[1..]))
  }

  /** Across all processes and all runs, every receiver marker stays backed by its owner's sender marker. */
  lemma {:induction false} RunsStayBacked(s: Stores, rs: seq<HookRun>)
    requires Backed(s) && AllOrderly(s, rs)
    ensures Backed(Runs(s, rs))
    decreases |rs|
  {
    if rs != [] {
      StepBackedExactly(s, rs[0]);
      RunsStayBacked(Step(s, rs[0]), rs[1..]);
    }
  }

  /** A session switch whose calls succeed moves the process's only advertisement, and no other process's. */
  lemma SwitchMovesTheDoorbell(s: Stores, r: HookRun, garden: string, pid: nat)
    requires Backed(s) && Garden(s, r) == Some(garden) && r.owner == Some(pid)
    requires ArmProvenanceFor(r.event).Some? && r.removeOk && r.senderOk && r.mailboxOk && r.receiverOk
    ensures var s' := Step(s, r);
      && s'.senders == s.senders[pid := garden]
      && (forall g :: g in s'.receivers && s'.receivers[g] == pid <==> g == garden)
      && (forall g :: g != garden && g in s.receivers && s.receivers[g] != pid ==>
            g in s'.receivers && s'.receivers[g] == s.receivers[g])
  {
    assert forall g <- s.receivers :: s.receivers[g] == pid ==> s.senders[pid] == g;
  }

  /** Records are only added: a native id keeps its garden, and gardens stay distinct. */
  lemma RecordsAreIdentity(s: Stores, r: HookRun)
    requires forall a, b :: a in s.records && b in s.records && s.records[a] == s.records[b] ==> a == b
    ensures var s' := Step(s, r);
      && (forall a <- s.records :: a in s'.records && s'.records[a] == s.records[a])
      && (forall a, b :: a in s'.records && b in s'.records && s'.records[a] == s'.records[b] ==> a == b)
  {
    hide Retire, Advertise, Step;
    StepRecords(s, r);
    if Garden(s, r).Some? && r.session !in s.records {
      assert forall a <- s.records :: s.records[a] in s.records.Values;
    }
  }

  lemma StepRecords(s: Stores, r: HookRun)
    ensures var garden := Garden(s, r);
      Step(s, r).records == if garden.Some? then s.records[r.session := garden.value] else s.records
  {
  }

  // ---------------------------------------------------------------- what a run does, by its envelope and calls

  /** The envelope names session and transcript, the store works, and a new session gets an id no record has. */
  predicate Registers(s: Stores, r: HookRun) {
    && r.session != "" && r.transcript != "" && r.storeOk
    && (r.session in s.records || forall session <- s.records :: s.records[session] != r.minted)
  }

  /** The garden the session has, or is given now. */
  function GardenOf(s: Stores, r: HookRun): string {
    if r.session in s.records then s.records[r.session] else r.minted
  }

  /** The events on which the vendor takes watches. */
  predicate ArmsWatch(event: string) { event == "SessionStart" || event == "CwdChanged" || event == "FileChanged" }

  lemma RegistersExactly(s: Stores, r: HookRun)
    ensures Garden(s, r) == if Registers(s, r) then Some(GardenOf(s, r)) else None
  {
    assert r.minted in s.records.Values <==> exists session <- s.records :: s.records[session] == r.minted;
  }

  /** A run that cannot register its session leaves all three stores as they are. */
  lemma DegradedRunsDoNothing(s: Stores, r: HookRun)
    requires !Registers(s, r)
    ensures Step(s, r) == s
  {
    RegistersExactly(s, r);
  }

  /**
   Every other run makes its session a citizen: recorded under the garden it had or the minted one, and no
   other record touched; the owner's sender marker names that garden if it could be written. The receiver
   markers move on an event that takes a watch and for a known owner only: the marker of the garden the
   owner served before goes if it was the owner's, the new garden's marker names the owner if it could be
   written, and all others stay.
   */
  lemma RunMakesCitizen(s: Stores, r: HookRun)
    requires Registers(s, r)
    ensures var s', g := Step(s, r), GardenOf(s, r);
      && s'.records == s.records[r.session := g]
      && s'.senders == (if r.owner.Some? && r.senderOk then s.senders[r.owner.value := g] else s.senders)
      && (r.owner.None? || !ArmsWatch(r.event) ==> s'.receivers == s.receivers)
      && (r.owner.Some? && ArmsWatch(r.event) ==>
            (forall h :: h != g ==>
               (h in s'.receivers <==> h in s.receivers && !(r.removeOk && Leaves(s, r.owner.value, h)))
               && (h in s'.receivers ==> s'.receivers[h] == s.receivers[h]))
            && (if r.mailboxOk && r.receiverOk then g in s'.receivers && s'.receivers[g] == r.owner.value
                else (g in s'.receivers <==> g in s.receivers)
                     && (g in s.receivers ==> s'.receivers[g] == s.receivers[g])))
  {
    RegistersExactly(s, r);
  }

  /** The process served `h` until now and still advertises it. */
  predicate Leaves(s: Stores, pid: nat, h: string) {
    pid in s.senders && s.senders[pid] == h && h in s.receivers && s.receivers[h] == pid
  }
}
