/**
  Registration: the check of the password, the loop that draws a fresh id, and the issue of a
  passcode. That takes three statements of the database, with room for others in between.
*/
module Registration {
  import opened Common
  import opened Database

  const BAD_REQUEST: nat := 400
  const UNAUTHORIZED: nat := 401
  const INTERNAL_ERROR: nat := 500

  /** The `Authorization` header: absent, not printable, or some text. */
  datatype Header = Absent | Unprintable | Header(text: Bytes)

  datatype Draw = Refused(status: nat) | Drawn(id: u64) | StillDrawing

  /** One turn of the loop: the id drawn, and whether the database answers the question about it. */
  datatype Attempt = Attempt(id: u64, answered: bool)

  /** The database has answered, and the id is taken. */
  ghost predicate Rejected(db: AgentTable, x: Attempt)
    reads db
  {
    x.answered && x.id in Credentials(db.rows)
  }

  /** Everything up to the choice of an id. The attempts are given as a list, which may run out
      before one of them settles the matter. */
  method DrawId(db: AgentTable, password: Option<Bytes>, header: Header, attempts: seq<Attempt>) returns (r: Draw)
    requires db.Valid()
    ensures r == Refused(400) <==> password.Some? && header == Unprintable
    ensures r == Refused(401) <==>
      password.Some? && header != Unprintable && header != Header("Basic " + password.value)
    ensures r.Refused? ==> r.status == 400 || r.status == 401 || r.status == 500
    ensures r.Drawn? || r == Refused(500) ==>
      exists i :: 0 <= i < |attempts| && !Rejected(db, attempts[i])
                  && (forall j :: 0 <= j < i ==> Rejected(db, attempts[j]))
                  && r == if attempts[i].answered then Drawn(attempts[i].id) else Refused(500)
    ensures r.StillDrawing? ==> forall j :: 0 <= j < |attempts| ==> Rejected(db, attempts[j])
  {
    if password.Some? {
      match header
      case Unprintable => return Refused(BAD_REQUEST);
      case Absent => return Refused(UNAUTHORIZED);
      case Header(text) =>
        if text != "Basic " + password.value { return Refused(UNAUTHORIZED); }
    }
    var i := 0;
    while i < |attempts|
      invariant 0 <= i <= |attempts|
      invariant forall j :: 0 <= j < i ==> Rejected(db, attempts[j])
    {
      if !attempts[i].answered { return Refused(INTERNAL_ERROR); }
      var taken := db.ContainsEntry(attempts[i].id);
      if !taken { return Drawn(attempts[i].id); }
      i := i + 1;
    }
    r := StillDrawing;
  }

  /** Saves a new passcode; if the id has got an owner meanwhile, puts back what was there and fails. */
  method Issue(db: AgentTable, id: u64, passcode: Passcode, now: int, later: int)
    returns (issued: Option<(u64, Passcode)>)
    requires db.Valid()
    modifies db
    ensures db.Valid()
    ensures issued == if id in old(Credentials(db.rows)) then None else Some((id, passcode))
    ensures issued.Some? ==> Credentials(db.rows) == old(Credentials(db.rows))[id := db.hash(passcode)]
    ensures issued.Some? ==> LastSeen(db.rows) == old(LastSeen(db.rows))[id := now]
    ensures issued.None? ==>
      Credentials(db.rows) == old(Credentials(db.rows))[id := db.hash(old(Credentials(db.rows))[id])]
    ensures issued.None? ==> LastSeen(db.rows) == old(LastSeen(db.rows))
  {
    var previous := db.SaveEntry(id, passcode, now);
    if previous.Some? {
      var replaced := db.SaveEntry(id, previous.value, later);
      return None;
    }
    return Some((id, passcode));
  }

  /** The same on the stand-in, where putting back changes nothing. */
  method IssueOnMock(db: MockDb, id: u64, passcode: Passcode) returns (issued: Option<(u64, Passcode)>)
    modifies db
    ensures issued == if id in old(db.store) then None else Some((id, passcode))
    ensures db.store == if issued.Some? then old(db.store)[id := passcode] else old(db.store)
  {
    var previous := db.SaveEntry(id, passcode);
    if previous.Some? {
      var replaced := db.SaveEntry(id, previous.value);
      return None;
    }
    return Some((id, passcode));
  }

  // ---------------------------------------------------------------------------------------------
  // Many registrations at once
  // ---------------------------------------------------------------------------------------------

  /** Where one registration stands between two statements of the database. A save is two statements
      without a transaction: the question what is there, and the upsert. */
  datatype Pc =
    | Drawing
    | Checked(id: u64)                                // about to ask
    | Selected(id: u64, found: Option<Bytes>)         // about to save
    | Restoring(id: u64, key: Bytes)                  // about to save what was found
    | Over

  /** The statements run on threads of their own: when the client is gone and its handler dropped,
      what was begun still goes on, but nobody hears of the result. */
  datatype Reg = Reg(pc: Pc, heard: bool)

  datatype Office = Office(rows: seq<Row>, regs: map<TaskId, Reg>, issued: seq<(u64, Passcode)>)

  datatype Step =
    | Arrive(t: TaskId)
    | Draw(t: TaskId, id: u64)
    | Select(t: TaskId)
    | Store(t: TaskId, passcode: Passcode, now: int)
    | Restore(t: TaskId, now: int)
    | Drop(t: TaskId)
    | Visit(id: u64, now: int)

  ghost predicate Init(s: Office) { s == Office([], map[], []) }

  ghost predicate Enabled(s: Office, step: Step) {
    match step
    case Arrive(t) => t !in s.regs
    case Draw(t, _) => t in s.regs && s.regs[t] == Reg(Drawing, true)
    case Select(t) => t in s.regs && s.regs[t].pc.Checked?
    case Store(t, _, _) => t in s.regs && s.regs[t].pc.Selected?
    case Restore(t, _) => t in s.regs && s.regs[t].pc.Restoring?
    case Drop(t) => t in s.regs
    case Visit(_, _) => true
  }

  function WithPc(s: Office, t: TaskId, pc: Pc): Office
    requires t in s.regs
  {
    s.(regs := s.regs[t := s.regs[t].(pc := pc)])
  }

  function Saved(s: Office, id: u64, key: Bytes, now: int): Office {
    s.(rows := Upserted(s.rows, Row(AsI64(id), key, now)))
  }

  ghost function KeyOf(s: Office, id: u64): Option<Bytes> {
    if id in Credentials(s.rows) then Some(Credentials(s.rows)[id]) else None
  }

  /** The upsert; and then, if anybody listens, the credential, or the attempt to put back what the
      question had found. */
  function AfterStore(hash: Hash, s: Office, t: TaskId, passcode: Passcode, now: int): Office
    requires t in s.regs && s.regs[t].pc.Selected?
  {
    var id, found := s.regs[t].pc.id, s.regs[t].pc.found;
    var saved := Saved(s, id, hash(passcode), now);
    if !s.regs[t].heard then WithPc(saved, t, Over)
    else if found.Some? then WithPc(saved, t, Restoring(id, found.value))
    else WithPc(saved, t, Over).(issued := s.issued + [(id, passcode)])
  }

  ghost function Apply(hash: Hash, s: Office, step: Step): Office
    requires Enabled(s, step)
  {
    match step
    case Arrive(t) => s.(regs := s.regs[t := Reg(Drawing, true)])
    case Draw(t, id) => if id in Credentials(s.rows) then s else WithPc(s, t, Checked(id))
    case Select(t) => WithPc(s, t, Selected(s.regs[t].pc.id, KeyOf(s, s.regs[t].pc.id)))
    case Store(t, passcode, now) => AfterStore(hash, s, t, passcode, now)
    case Restore(t, now) => WithPc(Saved(s, s.regs[t].pc.id, hash(s.regs[t].pc.key), now), t, Over)
    case Drop(t) => s.(regs := s.regs[t := s.regs[t].(heard := false)])
    case Visit(id, now) => s.(rows := Touched(s.rows, AsI64(id), now))
  }

  ghost predicate Next(hash: Hash, s: Office, s': Office) {
    exists step :: Enabled(s, step) && s' == Apply(hash, s, step)
  }

  ghost predicate IsRun(hash: Hash, run: seq<Office>) {
    run != [] && Init(run[0]) && forall i :: 0 < i < |run| ==> Next(hash, run[i - 1], run[i])
  }

  /** What validation answers. */
  ghost predicate Validates(hash: Hash, s: Office, id: u64, passcode: Passcode) { KeyOf(s, id) == Some(hash(passcode)) }

  ghost predicate Issued(s: Office, id: u64, passcode: Passcode) { (id, passcode) in s.issued }

  /** The registration has found `id` unused, and has not saved it yet. */
  ghost predicate Between(s: Office, t: TaskId, id: u64) {
    t in s.regs && (s.regs[t].pc == Checked(id) || (s.regs[t].pc.Selected? && s.regs[t].pc.id == id))
  }

  ghost predicate FoundKey(s: Office, t: TaskId, id: u64) {
    t in s.regs && s.regs[t].pc.Selected? && s.regs[t].pc.id == id && s.regs[t].pc.found.Some?
  }

  ghost predicate IsRestoring(s: Office, t: TaskId, id: u64) {
    t in s.regs && s.regs[t].pc.Restoring? && s.regs[t].pc.id == id
  }

  /** No two registrations are between the check and the save of the same id. */
  ghost predicate NoTwins(s: Office, id: u64) {
    forall t, u :: Between(s, t, id) && Between(s, u, id) ==> t == u
  }

  ghost predicate IssuedOnce(s: Office, id: u64) {
    forall i, j :: 0 <= i < j < |s.issued| && s.issued[i].0 == id ==> s.issued[j].0 != id
  }

  /** Holds whatever is interleaved: one row per id, and no issued id is forgotten. */
  ghost predicate Sound(s: Office) {
    && Unique(s.rows)
    && (forall i :: 0 <= i < |s.issued| ==> s.issued[i].0 in Credentials(s.rows))
  }

  /** Holds for an id that never had twins. */
  ghost predicate Calm(hash: Hash, s: Office, id: u64) {
    && (forall t :: Between(s, t, id) ==> id !in Credentials(s.rows))
    && (forall t :: !FoundKey(s, t, id) && !IsRestoring(s, t, id))
    && (forall p :: Issued(s, id, p) ==> Validates(hash, s, id, p))
    && IssuedOnce(s, id)
  }

  lemma CredentialsAfter(hash: Hash, s: Office, step: Step)
    requires Unique(s.rows) && Enabled(s, step)
    ensures Unique(Apply(hash, s, step).rows)
    ensures Credentials(Apply(hash, s, step).rows) ==
      match step
      case Store(t, passcode, _) => Credentials(s.rows)[s.regs[t].pc.id := hash(passcode)]
      case Restore(t, _) => Credentials(s.rows)[s.regs[t].pc.id := hash(s.regs[t].pc.key)]
      case _ => Credentials(s.rows)
  {
    hide Credentials, Unique;
    match step {
      case Store(t, passcode, now) => UpsertedMeans(s.rows, s.regs[t].pc.id, hash(passcode), now);
      case Restore(t, now) => UpsertedMeans(s.rows, s.regs[t].pc.id, hash(s.regs[t].pc.key), now);
      case Visit(id, now) => TouchedMeans(s.rows, id, now);
      case _ =>
    }
  }

  /** Exactly which steps spare a credential that is good: all but a save or a putting back of the
      same id with a key of another hash. */
  lemma KeepsCredentialIff(hash: Hash, s: Office, step: Step, id: u64, p: Passcode)
    requires Sound(s) && Enabled(s, step) && Validates(hash, s, id, p)
    ensures Validates(hash, Apply(hash, s, step), id, p) <==>
      match step
      case Store(t, q, _) => s.regs[t].pc.id == id ==> hash(q) == hash(p)
      case Restore(t, _) => s.regs[t].pc.id == id ==> hash(s.regs[t].pc.key) == hash(p)
      case _ => true
  {
    CredentialsAfter(hash, s, step);
    hide Credentials, Unique;
  }

  /** Exactly when a save gives out an id that had already been given out: when the question, asked
      before, found nothing, and somebody listens. */
  lemma SavesAgainIff(hash: Hash, s: Office, t: TaskId, q: Passcode, now: int, k: nat)
    requires Sound(s) && Enabled(s, Store(t, q, now)) && k < |s.issued| && s.issued[k].0 == s.regs[t].pc.id
    ensures IssuedOnce(Apply(hash, s, Store(t, q, now)), s.regs[t].pc.id) <==>
      IssuedOnce(s, s.regs[t].pc.id) && (s.regs[t].pc.found.Some? || !s.regs[t].heard)
  {
    var s', id := Apply(hash, s, Store(t, q, now)), s.regs[t].pc.id;
    hide Upserted;
    if s.regs[t].heard && s.regs[t].pc.found == None {
      assert s'.issued[k].0 == id && s'.issued[|s.issued|].0 == id;
    } else {
      assert s'.issued == s.issued;
    }
  }

  lemma SoundStep(hash: Hash, s: Office, step: Step)
    requires Sound(s) && Enabled(s, step)
    ensures Sound(Apply(hash, s, step)) && s.issued <= Apply(hash, s, step).issued
  {
    CredentialsAfter(hash, s, step);
    hide Credentials, Unique, Upserted, Touched;
  }

  /** Where whoever is between check and save of `id` came from. */
  lemma BetweenBefore(hash: Hash, s: Office, step: Step, t: TaskId, id: u64)
    requires Sound(s) && Enabled(s, step) && Between(Apply(hash, s, step), t, id)
    ensures Between(s, t, id) || (step == Draw(t, id) && id !in Credentials(s.rows))
    ensures Between(s, t, id) ==> !(step.Store? && step.t == t)
  {
    hide Credentials, Unique, Upserted, Touched;
  }

  lemma CalmStep(hash: Hash, s: Office, step: Step, id: u64)
    requires Sound(s) && Calm(hash, s, id) && NoTwins(s, id) && Enabled(s, step)
    ensures Calm(hash, Apply(hash, s, step), id)
  {
    CredentialsAfter(hash, s, step);
    var s' := Apply(hash, s, step);
    hide Unique, Upserted, Touched, Credentials;
    assert step.Store? ==> Between(s, step.t, s.regs[step.t].pc.id);
    assert step.Restore? ==> IsRestoring(s, step.t, s.regs[step.t].pc.id);
    assert step.Select? ==> Between(s, step.t, s.regs[step.t].pc.id);
    forall t | Between(s', t, id) ensures id !in Credentials(s'.rows) {
      BetweenBefore(hash, s, step, t, id);
    }
    forall t ensures !FoundKey(s', t, id) && !IsRestoring(s', t, id) {
      assert !FoundKey(s, t, id) && !IsRestoring(s, t, id);
    }
    forall p | Issued(s', id, p) ensures Validates(hash, s', id, p) {
      assert Issued(s, id, p) || (step.Store? && s.regs[step.t].pc.id == id && p == step.passcode);
    }
    StaysIssuedOnce(hash, s, step, id);
  }

  lemma StaysIssuedOnce(hash: Hash, s: Office, step: Step, id: u64)
    requires Sound(s) && Calm(hash, s, id) && Enabled(s, step)
    ensures IssuedOnce(Apply(hash, s, step), id)
  {
    hide Credentials, Unique, Upserted, Touched;
    assert step.Store? ==> Between(s, step.t, s.regs[step.t].pc.id);
  }

  lemma Initially(hash: Hash, s: Office, id: u64)
    requires Init(s)
    ensures Sound(s) && Calm(hash, s, id)
  {}

  lemma {:induction false} RunsAreSound(hash: Hash, run: seq<Office>, i: nat)
    requires IsRun(hash, run) && i < |run|
    ensures Sound(run[i])
  {
    hide Sound, Next;
    if i == 0 {
      Initially(hash, run[0], 0);
    } else {
      RunsAreSound(hash, run, i - 1);
      NextIsSound(hash, run[i - 1], run[i]);
    }
  }

  lemma NextIsSound(hash: Hash, s: Office, s': Office)
    requires Sound(s) && Next(hash, s, s')
    ensures Sound(s') && s.issued <= s'.issued
    ensures forall id :: Calm(hash, s, id) && NoTwins(s, id) ==> Calm(hash, s', id)
  {
    var step :| Enabled(s, step) && s' == Apply(hash, s, step);
    SoundStep(hash, s, step);
    hide Sound, Calm, NoTwins, Apply, Enabled;
    forall id | Calm(hash, s, id) && NoTwins(s, id) ensures Calm(hash, s', id) {
      CalmStep(hash, s, step, id);
    }
  }

  lemma {:induction false} RunsAreCalm(hash: Hash, run: seq<Office>, i: nat, id: u64)
    requires IsRun(hash, run) && i < |run|
    requires forall j :: 0 <= j < i ==> NoTwins(run[j], id)
    ensures Calm(hash, run[i], id)
  {
    hide Calm, Next, NoTwins, Sound;
    if i == 0 {
      Initially(hash, run[0], id);
    } else {
      RunsAreCalm(hash, run, i - 1, id);
      RunsAreSound(hash, run, i - 1);
      NextIsSound(hash, run[i - 1], run[i]);
    }
  }

  lemma {:induction false} IssuedForEver(hash: Hash, run: seq<Office>, i: nat, j: nat)
    requires IsRun(hash, run) && i <= j < |run|
    ensures run[i].issued <= run[j].issued
  {
    hide Next, Sound, Init;
    if i < j {
      IssuedForEver(hash, run, i, j - 1);
      RunsAreSound(hash, run, j - 1);
      NextIsSound(hash, run[j - 1], run[j]);
    }
  }

  /** An id is not issued twice, provided that no two registrations were ever between check and save
      of it. */
  lemma IssuedIdsAreDistinct(hash: Hash, run: seq<Office>, i: nat, j: nat, k: nat)
    requires IsRun(hash, run) && i < |run| && j < k < |run[i].issued|
    requires forall n :: 0 <= n < i ==> NoTwins(run[n], run[i].issued[j].0)
    ensures run[i].issued[j].0 != run[i].issued[k].0
  {
    RunsAreCalm(hash, run, i, run[i].issued[j].0);
  }

  /** Under the same condition whoever was issued a credential can log in with it ever after. */
  lemma CredentialsStayValid(hash: Hash, run: seq<Office>, i: nat, j: nat, id: u64, passcode: Passcode)
    requires IsRun(hash, run) && i <= j < |run| && Issued(run[i], id, passcode)
    requires forall k :: 0 <= k < j ==> NoTwins(run[k], id)
    ensures Validates(hash, run[j], id, passcode)
  {
    IssuedForEver(hash, run, i, j);
    RunsAreCalm(hash, run, j, id);
  }

  // ---------------------------------------------------------------------------------------------
  // Without that condition
  // ---------------------------------------------------------------------------------------------

  lemma OneMore(hash: Hash, run: seq<Office>, step: Step) returns (longer: seq<Office>)
    requires IsRun(hash, run) && Enabled(run[|run| - 1], step)
    ensures longer == run + [Apply(hash, run[|run| - 1], step)] && IsRun(hash, longer)
  {
    hide Init, Enabled, Apply;
    longer := run + [Apply(hash, run[|run| - 1], step)];
    assert Next(hash, run[|run| - 1], Apply(hash, run[|run| - 1], step));
  }

  ghost predicate IsAt(s: Office, t: TaskId, pc: Pc) { t in s.regs && s.regs[t] == Reg(pc, true) }

  /** Twins can come about, for every id ... */
  lemma TwinsHappen(hash: Hash, id: u64) returns (run: seq<Office>)
    ensures IsRun(hash, run)
    ensures var s := run[|run| - 1];
      && Sound(s) && IsAt(s, 0, Checked(id)) && IsAt(s, 1, Checked(id))
      && id !in Credentials(s.rows) && s.issued == []
  {
    run := OneMore(hash, [Office([], map[], [])], Arrive(0));
    run := OneMore(hash, run, Arrive(1));
    run := OneMore(hash, run, Draw(0, id));
    run := OneMore(hash, run, Draw(1, id));
    RunsAreSound(hash, run, |run| - 1);
  }

  /** ... and both can be issued that id, if both ask before either saves: from any two such
      registrations, whatever else is going on. The first credential is then good if and only if
      the two passcodes collide. */
  lemma BothIssued(hash: Hash, s: Office, t: TaskId, u: TaskId, id: u64, p: Passcode, q: Passcode, now: int)
    requires Sound(s) && t != u && IsAt(s, t, Selected(id, None)) && IsAt(s, u, Selected(id, None))
    ensures var s1 := Apply(hash, s, Store(t, p, now));
      && Issued(s1, id, p) && Validates(hash, s1, id, p) && Enabled(s1, Store(u, q, now)) &&
      var s2 := Apply(hash, s1, Store(u, q, now));
      && s2.issued == s.issued + [(id, p), (id, q)] && Validates(hash, s2, id, q)
      && (Validates(hash, s2, id, p) <==> hash(p) == hash(q))
  {
    var s1 := Apply(hash, s, Store(t, p, now));
    CredentialsAfter(hash, s, Store(t, p, now));
    hide Credentials, Unique, Upserted;
    assert s1.issued[|s.issued|] == (id, p);
    CredentialsAfter(hash, s1, Store(u, q, now));
  }

  /** A whole run that issues one id twice. */
  lemma OneIdIssuedTwice(hash: Hash, id: u64, p: Passcode, q: Passcode) returns (run: seq<Office>)
    ensures IsRun(hash, run) && run[|run| - 1].issued == [(id, p), (id, q)]
    ensures Validates(hash, run[|run| - 1], id, p) <==> hash(p) == hash(q)
  {
    run := TwinsHappen(hash, id);
    run := OneMore(hash, run, Select(0));
    run := OneMore(hash, run, Select(1));
    RunsAreSound(hash, run, |run| - 1);
    BothIssued(hash, run[|run| - 1], 0, 1, id, p, q, 0);
    hide Apply;
    run := OneMore(hash, run, Store(0, p, 0));
    run := OneMore(hash, run, Store(1, q, 0));
  }

  /** If the second asks after the first has saved, it puts "back" what it found, which is then
      hashed once more: the credential is good afterwards if and only if hashing its hash changes
      nothing. */
  lemma TwinsLockOut(hash: Hash, s: Office, t: TaskId, u: TaskId, id: u64, p: Passcode, q: Passcode, now: int)
    requires Sound(s) && t != u && IsAt(s, t, Selected(id, None)) && IsAt(s, u, Checked(id))
    ensures var s1 := Apply(hash, s, Store(t, p, now));
      && Issued(s1, id, p) && Validates(hash, s1, id, p) && Enabled(s1, Select(u)) &&
      var s2 := Apply(hash, s1, Select(u));
      && Enabled(s2, Store(u, q, now)) &&
      var s3 := Apply(hash, s2, Store(u, q, now));
      && (Validates(hash, s3, id, p) <==> hash(p) == hash(q)) && Enabled(s3, Restore(u, now)) &&
      var s4 := Apply(hash, s3, Restore(u, now));
      && s4.issued == s1.issued
      && forall x :: Validates(hash, s4, id, x) <==> hash(x) == hash(hash(p))
  {
    var s1 := Apply(hash, s, Store(t, p, now));
    CredentialsAfter(hash, s, Store(t, p, now));
    hide Credentials, Unique, Upserted;
    assert s1.issued[|s.issued|] == (id, p);
    var s2 := Apply(hash, s1, Select(u));
    CredentialsAfter(hash, s1, Select(u));
    CredentialsAfter(hash, s2, Store(u, q, now));
    var s3 := Apply(hash, s2, Store(u, q, now));
    CredentialsAfter(hash, s3, Restore(u, now));
  }

  /** A whole run in which a registration whose client has gone saves all the same: nobody is issued its
      passcode, and the one agent that was issued the id is locked out, unless the passcodes collide. */
  lemma UnheardLocksOut(hash: Hash, id: u64, p: Passcode, q: Passcode) returns (run: seq<Office>)
    ensures IsRun(hash, run) && run[|run| - 1].issued == [(id, p)] && Validates(hash, run[|run| - 1], id, q)
    ensures Validates(hash, run[|run| - 1], id, p) <==> hash(p) == hash(q)
  {
    run := TwinsHappen(hash, id);
    run := OneMore(hash, run, Select(0));
    run := OneMore(hash, run, Select(1));
    run := StoresTheFirst(hash, run, id, p);
    run := OneMore(hash, run, Drop(1));
    RunsAreSound(hash, run, |run| - 1);
    CredentialsAfter(hash, run[|run| - 1], Store(1, q, 0));
    hide Credentials, Unique, Upserted;
    run := OneMore(hash, run, Store(1, q, 0));
  }

  lemma StoresTheFirst(hash: Hash, run: seq<Office>, id: u64, p: Passcode) returns (longer: seq<Office>)
    requires IsRun(hash, run) && run[|run| - 1].issued == []
    requires IsAt(run[|run| - 1], 0, Selected(id, None)) && IsAt(run[|run| - 1], 1, Selected(id, None))
    ensures IsRun(hash, longer) && longer[|longer| - 1].issued == [(id, p)]
    ensures IsAt(longer[|longer| - 1], 1, Selected(id, None))
  {
    longer := OneMore(hash, run, Store(0, p, 0));
  }

  /** Whenever a known agent visits, that time is kept; and nothing else changes. */
  lemma VisitIsSeen(hash: Hash, run: seq<Office>, id: u64, now: int) returns (longer: seq<Office>)
    requires IsRun(hash, run)
    ensures IsRun(hash, longer) && |longer| == |run| + 1 && longer[..|run|] == run
    ensures var s, b := run[|run| - 1], longer[|longer| - 1];
      && LastSeen(b.rows) == (if id in LastSeen(s.rows) then LastSeen(s.rows)[id := now] else LastSeen(s.rows))
      && Credentials(b.rows) == Credentials(s.rows) && b.regs == s.regs && b.issued == s.issued
  {
    var s := run[|run| - 1];
    RunsAreSound(hash, run, |run| - 1);
    TouchedMeans(s.rows, id, now);
    hide Credentials, LastSeen, Unique, Touched;
    longer := OneMore(hash, run, Visit(id, now));
  }
}
