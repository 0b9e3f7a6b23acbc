/** The short-lived cache of decrypted provider keys, with the row read and the cache write apart. */
module CredentialCache {
  import opened Wrappers

  /** A stored provider row: the three columns, and what decrypting them gives, if it works. */
  datatype Row = Row(complete: bool, plaintext: Option<string>)

  /** `born` is the number of steps done, and `readAt` the time, when the row was read; `storedAt` is the time of the cache write. */
  datatype Entry = Entry(value: Option<string>, expiresAt: int, born: nat, readAt: int, storedAt: int)

  /** A resolution that has read its row and not yet stored the result. */
  datatype Pending = Pending(organization: string, provider: string, value: Option<string>, born: nat, readAt: int)

  /** A resolution whose decryption failed, and the step it failed at. */
  datatype Failure = Failure(organization: string, provider: string, born: nat)

  datatype Answer = Answer(organization: string, provider: string, value: Option<string>, at: int, born: nat, readAt: int, storedAt: int)

  /** `answers` and `failures` are the history: every value handed out, every refused decryption. */
  datatype World = World(
    steps: nat,
    now: int,
    rows: map<(string, string), Row>,
    cache: map<string, Entry>,
    pending: map<nat, Pending>,
    answers: seq<Answer>,
    failures: seq<Failure>)

  function CacheKey(organization: string, provider: string): string {
    organization + "::" + provider
  }

  datatype Decoded = Value(value: Option<string>) | Undecryptable

  /** No row or an incomplete one means no key; a complete one must decrypt. */
  function Decode(rows: map<(string, string), Row>, organization: string, provider: string): Decoded {
    if (organization, provider) !in rows || !rows[(organization, provider)].complete then Value(None)
    else if rows[(organization, provider)].plaintext.None? then Undecryptable
    else Value(rows[(organization, provider)].plaintext)
  }

  predicate Fresh(cache: map<string, Entry>, key: string, now: int) {
    key in cache && cache[key].expiresAt > now
  }

  // -- the steps ----------------------------------------------------------------------------

  /** A cached key is handed out at once; otherwise the row is read, and a failed decryption throws. */
  function StartResolve(w: World, id: nat, organization: string, provider: string): World {
    var key := CacheKey(organization, provider);
    if id in w.pending then w
    else if Fresh(w.cache, key, w.now) then
      var e := w.cache[key];
      w.(answers := w.answers + [Answer(organization, provider, e.value, w.now, e.born, e.readAt, e.storedAt)])
    else match Decode(w.rows, organization, provider)
      case Undecryptable => w.(failures := w.failures + [Failure(organization, provider, w.steps)])
      case Value(v) => w.(pending := w.pending[id := Pending(organization, provider, v, w.steps, w.now)])
  }

  function FinishResolve(w: World, id: nat, ttl: nat): World {
    if id !in w.pending then w
    else
      var p := w.pending[id];
      w.(pending := w.pending - {id},
         cache := w.cache[CacheKey(p.organization, p.provider) := Entry(p.value, w.now + ttl, p.born, p.readAt, w.now)],
         answers := w.answers + [Answer(p.organization, p.provider, p.value, w.now, p.born, p.readAt, w.now)])
  }

  /** With both parts given one entry goes; otherwise all of them do. */
  function DropKeys(cache: map<string, Entry>, organization: Option<string>, provider: Option<string>): map<string, Entry> {
    if organization.Some? && organization.value != "" && provider.Some? && provider.value != ""
    then cache - {CacheKey(organization.value, provider.value)}
    else map[]
  }

  function Invalidated(w: World, organization: Option<string>, provider: Option<string>): World {
    w.(cache := DropKeys(w.cache, organization, provider))
  }

  datatype Action =
    | WriteRow(organization: string, provider: string, row: Option<Row>)
    | Tick(delta: nat)
    | BeginResolve(id: nat, organization: string, provider: string)
    | EndResolve(id: nat)
    | Drop(dropOrganization: Option<string>, dropProvider: Option<string>)

  function Act(w: World, action: Action, ttl: nat): World {
    match action
    case WriteRow(o, p, row) => w.(rows := if row.Some? then w.rows[(o, p) := row.value] else w.rows - {(o, p)})
    case Tick(delta) => w.(now := w.now + delta)
    case BeginResolve(id, o, p) => StartResolve(w, id, o, p)
    case EndResolve(id) => FinishResolve(w, id, ttl)
    case Drop(o, p) => Invalidated(w, o, p)
  }

  function Step(w: World, action: Action, ttl: nat): World {
    Act(w, action, ttl).(steps := w.steps + 1)
  }

  function Run(w: World, actions: seq<Action>, ttl: nat): World {
    if actions == [] then w else Step(Run(w, actions[..|actions| - 1], ttl), actions[|actions| - 1], ttl)
  }

  function Initial(rows: map<(string, string), Row>, now: int): World {
    World(0, now, rows, map[], map[], [], [])
  }

  // -- cache keys ------------------------------------------------------------------------------

  lemma FirstColon(o: string, p: string)
    requires ':' !in o
    ensures CacheKey(o, p)[|o|] == ':' && forall i :: 0 <= i < |o| ==> CacheKey(o, p)[i] != ':'
  {
    forall i | 0 <= i < |o| ensures CacheKey(o, p)[i] != ':' {
      assert CacheKey(o, p)[i] == o[i] && o[i] in o;
    }
  }

  /** Organization ids without a colon never share a cache key. */
  lemma KeysAreInjective(o1: string, p1: string, o2: string, p2: string)
    requires ':' !in o1 && ':' !in o2 && CacheKey(o1, p1) == CacheKey(o2, p2)
    ensures o1 == o2 && p1 == p2
  {
    FirstColon(o1, p1);
    FirstColon(o2, p2);
    var k1, k2 := CacheKey(o1, p1), CacheKey(o2, p2);
    assert |o1| == |o2|;
    assert o1 == k1[..|o1|] && o2 == k2[..|o2|];
    assert p1 == k1[|o1| + 2..] && p2 == k2[|o2| + 2..];
  }

  /** With colons allowed two different pairs can share one. */
  lemma ColonsCollide()
    ensures CacheKey("a", "b::c") == CacheKey("a::b", "c")
  {
    assert CacheKey("a", "b::c") == "a::b::c" && CacheKey("a::b", "c") == "a::b::c";
  }

  // -- where values come from ------------------------------------------------------------------------

  /** Step `born` was a resolution of the pair, at that time, and its row held this value. */
  ghost predicate WasHeld(start: World, actions: seq<Action>, ttl: nat, o: string, p: string, value: Option<string>, born: nat, readAt: int) {
    && born < |actions| && actions[born].BeginResolve? && actions[born].organization == o && actions[born].provider == p
    && Decode(Run(start, actions[..born], ttl).rows, o, p) == Value(value)
    && Run(start, actions[..born], ttl).now == readAt
  }

  /** The value was read for some pair with this cache key. */
  ghost predicate Origin(start: World, actions: seq<Action>, ttl: nat, key: string, value: Option<string>, born: nat, readAt: int) {
    exists o, p :: key == CacheKey(o, p) && WasHeld(start, actions, ttl, o, p, value, born, readAt)
  }

  ghost predicate PendingOk(start: World, actions: seq<Action>, ttl: nat, q: Pending) {
    WasHeld(start, actions, ttl, q.organization, q.provider, q.value, q.born, q.readAt)
  }

  ghost predicate EntryOk(start: World, actions: seq<Action>, ttl: nat, key: string, e: Entry) {
    Origin(start, actions, ttl, key, e.value, e.born, e.readAt)
  }

  ghost predicate AnswerOk(start: World, actions: seq<Action>, ttl: nat, a: Answer) {
    Origin(start, actions, ttl, CacheKey(a.organization, a.provider), a.value, a.born, a.readAt)
  }

  /** Step `born` was a resolution of the pair whose row could not be decrypted. */
  ghost predicate FailureOk(start: World, actions: seq<Action>, ttl: nat, f: Failure) {
    && f.born < |actions| && actions[f.born].BeginResolve?
    && actions[f.born].organization == f.organization && actions[f.born].provider == f.provider
    && Decode(Run(start, actions[..f.born], ttl).rows, f.organization, f.provider) == Undecryptable
  }

  ghost predicate Sound(start: World, actions: seq<Action>, ttl: nat, w: World) {
    && (forall key {:trigger key in w.cache} :: key in w.cache ==> EntryOk(start, actions, ttl, key, w.cache[key]))
    && (forall id {:trigger id in w.pending} :: id in w.pending ==> PendingOk(start, actions, ttl, w.pending[id]))
    && (forall a {:trigger a in w.answers} :: a in w.answers ==> AnswerOk(start, actions, ttl, a))
    && (forall f {:trigger f in w.failures} :: f in w.failures ==> FailureOk(start, actions, ttl, f))
    && w.steps == |actions|
  }

  lemma HeldStaysHeld(start: World, actions: seq<Action>, last: Action, ttl: nat, o: string, p: string, value: Option<string>, born: nat, readAt: int)
    requires WasHeld(start, actions, ttl, o, p, value, born, readAt)
    ensures WasHeld(start, actions + [last], ttl, o, p, value, born, readAt)
  {
    assert (actions + [last])[..born] == actions[..born];
  }

  lemma OriginStays(start: World, actions: seq<Action>, last: Action, ttl: nat, key: string, value: Option<string>, born: nat, readAt: int)
    requires Origin(start, actions, ttl, key, value, born, readAt)
    ensures Origin(start, actions + [last], ttl, key, value, born, readAt)
  {
    var o, p :| key == CacheKey(o, p) && WasHeld(start, actions, ttl, o, p, value, born, readAt);
    HeldStaysHeld(start, actions, last, ttl, o, p, value, born, readAt);
  }

  lemma FailureStays(start: World, actions: seq<Action>, last: Action, ttl: nat, f: Failure)
    requires FailureOk(start, actions, ttl, f)
    ensures FailureOk(start, actions + [last], ttl, f)
  {
    assert (actions + [last])[..f.born] == actions[..f.born];
  }

  /** What the step at hand reads is what its row holds now. */
  lemma HeldNow(start: World, actions: seq<Action>, id: nat, o: string, p: string, ttl: nat)
    ensures var longer, decoded := actions + [BeginResolve(id, o, p)], Decode(Run(start, actions, ttl).rows, o, p);
      && (decoded.Value? ==> WasHeld(start, longer, ttl, o, p, decoded.value, |actions|, Run(start, actions, ttl).now))
      && (decoded.Undecryptable? ==> FailureOk(start, longer, ttl, Failure(o, p, |actions|)))
  {
    assert (actions + [BeginResolve(id, o, p)])[..|actions|] == actions;
  }

  lemma OldFactsStay(start: World, actions: seq<Action>, last: Action, ttl: nat, w: World)
    requires Sound(start, actions, ttl, w)
    ensures Sound(start, actions + [last], ttl, w.(steps := w.steps + 1))
  {
    hide Origin, WasHeld, FailureOk;
    forall key | key in w.cache ensures EntryOk(start, actions + [last], ttl, key, w.cache[key]) {
      var e := w.cache[key];
      OriginStays(start, actions, last, ttl, key, e.value, e.born, e.readAt);
    }
    forall id | id in w.pending ensures PendingOk(start, actions + [last], ttl, w.pending[id]) {
      var q := w.pending[id];
      HeldStaysHeld(start, actions, last, ttl, q.organization, q.provider, q.value, q.born, q.readAt);
    }
    forall a | a in w.answers ensures AnswerOk(start, actions + [last], ttl, a) {
      OriginStays(start, actions, last, ttl, CacheKey(a.organization, a.provider), a.value, a.born, a.readAt);
    }
    forall f | f in w.failures ensures FailureOk(start, actions + [last], ttl, f) {
      FailureStays(start, actions, last, ttl, f);
    }
  }

  lemma StepIsSound(start: World, actions: seq<Action>, last: Action, ttl: nat)
    requires Sound(start, actions, ttl, Run(start, actions, ttl))
    ensures Sound(start, actions + [last], ttl, Step(Run(start, actions, ttl), last, ttl))
  {
    hide Origin, WasHeld, FailureOk, Run;
    var w, longer := Run(start, actions, ttl), actions + [last];
    OldFactsStay(start, actions, last, ttl, w);
    match last
    case BeginResolve(id, o, p) => HeldNow(start, actions, id, o, p, ttl);
    case EndResolve(id) =>
      if id in w.pending {
        var q := w.pending[id];
        assert PendingOk(start, longer, ttl, q);
        HeldHasOrigin(start, longer, ttl, q.organization, q.provider, q.value, q.born, q.readAt);
      }
    case _ =>
  }

  lemma HeldHasOrigin(start: World, actions: seq<Action>, ttl: nat, o: string, p: string, value: Option<string>, born: nat, readAt: int)
    requires WasHeld(start, actions, ttl, o, p, value, born, readAt)
    ensures Origin(start, actions, ttl, CacheKey(o, p), value, born, readAt)
  {}

  lemma {:induction false} RunIsSound(rows: map<(string, string), Row>, now: int, actions: seq<Action>, ttl: nat)
    ensures Sound(Initial(rows, now), actions, ttl, Run(Initial(rows, now), actions, ttl))
  {
    hide Sound, Step;
    if actions == [] {
      NothingYet(Initial(rows, now), ttl);
    } else {
      var init, last := actions[..|actions| - 1], actions[|actions| - 1];
      RunIsSound(rows, now, init, ttl);
      StepIsSound(Initial(rows, now), init, last, ttl);
      assert init + [last] == actions;
    }
  }

  lemma NothingYet(start: World, ttl: nat)
    requires start.cache == map[] && start.pending == map[] && start.answers == [] && start.failures == [] && start.steps == 0
    ensures Sound(start, [], ttl, start)
  {}

  predicate NoColons(actions: seq<Action>) {
    forall a :: a in actions && a.BeginResolve? ==> ':' !in a.organization
  }

  /** Whatever happens in between, every answer is a value the row of that very pair really held. */
  lemma AnswersWereHeld(rows: map<(string, string), Row>, now: int, actions: seq<Action>, ttl: nat, a: Answer)
    requires NoColons(actions) && ':' !in a.organization && a in Run(Initial(rows, now), actions, ttl).answers
    ensures WasHeld(Initial(rows, now), actions, ttl, a.organization, a.provider, a.value, a.born, a.readAt)
  {
    hide Run;
    RunIsSound(rows, now, actions, ttl);
    var start := Initial(rows, now);
    assert AnswerOk(start, actions, ttl, a);
    var o, p :| CacheKey(a.organization, a.provider) == CacheKey(o, p) && WasHeld(start, actions, ttl, o, p, a.value, a.born, a.readAt);
    assert actions[a.born] in actions;
    KeysAreInjective(a.organization, a.provider, o, p);
  }

  /**
   Over every run, cached entries, values on their way into the cache and answers all stem from a
   decryption that worked, at the step they are marked with; nothing is marked with the step of a
   resolution that failed.
   */
  lemma FailuresAreNotCached(rows: map<(string, string), Row>, now: int, actions: seq<Action>, ttl: nat)
    ensures var start, w := Initial(rows, now), Run(Initial(rows, now), actions, ttl);
      && (forall key :: key in w.cache ==> EntryOk(start, actions, ttl, key, w.cache[key]))
      && (forall id :: id in w.pending ==> PendingOk(start, actions, ttl, w.pending[id]))
      && (forall a :: a in w.answers ==> AnswerOk(start, actions, ttl, a))
      && (forall f, key :: f in w.failures && key in w.cache ==> w.cache[key].born != f.born)
      && (forall f, id :: f in w.failures && id in w.pending ==> w.pending[id].born != f.born)
      && (forall f, a :: f in w.failures && a in w.answers ==> a.born != f.born)
  {
    hide Run, WasHeld, Origin, FailureOk;
    RunIsSound(rows, now, actions, ttl);
    var start, w := Initial(rows, now), Run(Initial(rows, now), actions, ttl);
    forall f, key | f in w.failures && key in w.cache ensures w.cache[key].born != f.born {
      FailureHasNoOrigin(start, actions, ttl, f, key, w.cache[key].value, w.cache[key].born, w.cache[key].readAt);
    }
    forall f, id | f in w.failures && id in w.pending ensures w.pending[id].born != f.born {
      var q := w.pending[id];
      assert PendingOk(start, actions, ttl, q);
      HeldHasOrigin(start, actions, ttl, q.organization, q.provider, q.value, q.born, q.readAt);
      FailureHasNoOrigin(start, actions, ttl, f, CacheKey(q.organization, q.provider), q.value, q.born, q.readAt);
    }
    forall f, a | f in w.failures && a in w.answers ensures a.born != f.born {
      assert AnswerOk(start, actions, ttl, a);
      FailureHasNoOrigin(start, actions, ttl, f, CacheKey(a.organization, a.provider), a.value, a.born, a.readAt);
    }
  }

  lemma FailureHasNoOrigin(start: World, actions: seq<Action>, ttl: nat, f: Failure, key: string, value: Option<string>, born: nat, readAt: int)
    requires FailureOk(start, actions, ttl, f) && Origin(start, actions, ttl, key, value, born, readAt)
    ensures born != f.born
  {
    hide Run;
  }

  // -- how old answers are ---------------------------------------------------------------------------------

  /** Entries and answers know when they were stored, and expire a time to live after it. */
  predicate Aged(w: World, ttl: nat) {
    && (forall key :: key in w.cache ==>
          w.cache[key].expiresAt == w.cache[key].storedAt + ttl && w.cache[key].readAt <= w.cache[key].storedAt <= w.now)
    && (forall id :: id in w.pending ==> w.pending[id].readAt <= w.now)
    && (forall a :: a in w.answers ==> a.readAt <= a.storedAt <= a.at && (a.at == a.storedAt || a.at < a.storedAt + ttl))
  }

  lemma StepAges(w: World, action: Action, ttl: nat)
    requires Aged(w, ttl)
    ensures Aged(Step(w, action, ttl), ttl)
  {
    hide Decode, CacheKey;
  }

  lemma {:induction false} RunAges(rows: map<(string, string), Row>, now: int, actions: seq<Action>, ttl: nat)
    ensures Aged(Run(Initial(rows, now), actions, ttl), ttl)
  {
    hide Step;
    if actions != [] {
      RunAges(rows, now, actions[..|actions| - 1], ttl);
      StepAges(Run(Initial(rows, now), actions[..|actions| - 1], ttl), actions[|actions| - 1], ttl);
    }
  }

  /** Every resolution stores its result before the clock moves on. */
  predicate Prompt(w: World, actions: seq<Action>, ttl: nat) {
    actions == [] ||
    (Prompt(w, actions[..|actions| - 1], ttl)
     && (actions[|actions| - 1].Tick? && actions[|actions| - 1].delta > 0 ==> Run(w, actions[..|actions| - 1], ttl).pending == map[]))
  }

  predicate StoredWhenRead(w: World) {
    && (forall key :: key in w.cache ==> w.cache[key].storedAt == w.cache[key].readAt)
    && (forall id :: id in w.pending ==> w.pending[id].readAt == w.now)
    && (forall a :: a in w.answers ==> a.storedAt == a.readAt)
  }

  lemma StepStoresWhenRead(w: World, action: Action, ttl: nat)
    requires StoredWhenRead(w) && (action.Tick? && action.delta > 0 ==> w.pending == map[])
    ensures StoredWhenRead(Step(w, action, ttl))
  {
    hide Decode, CacheKey;
  }

  lemma {:induction false} PromptStoresWhenRead(rows: map<(string, string), Row>, now: int, actions: seq<Action>, ttl: nat)
    requires Prompt(Initial(rows, now), actions, ttl)
    ensures StoredWhenRead(Run(Initial(rows, now), actions, ttl))
  {
    hide Step;
    if actions != [] {
      PromptStoresWhenRead(rows, now, actions[..|actions| - 1], ttl);
      StepStoresWhenRead(Run(Initial(rows, now), actions[..|actions| - 1], ttl), actions[|actions| - 1], ttl);
    }
  }

  /**
   In every run an answer is given when its value is stored or less than a time to live later. What
   an answer can be older than that is the time between the row read and the store, which is
   nothing if every resolution stores at once.
   */
  lemma AnswersAreYoung(rows: map<(string, string), Row>, now: int, actions: seq<Action>, ttl: nat, a: Answer)
    requires a in Run(Initial(rows, now), actions, ttl).answers
    ensures a.readAt <= a.storedAt <= a.at && (a.at == a.storedAt || a.at - a.storedAt < ttl)
    ensures Prompt(Initial(rows, now), actions, ttl) ==> a.storedAt == a.readAt
  {
    hide Run;
    RunAges(rows, now, actions, ttl);
    if Prompt(Initial(rows, now), actions, ttl) {
      PromptStoresWhenRead(rows, now, actions, ttl);
    }
  }

  // -- what a resolution answers ----------------------------------------------------------------------------

  /**
   A fresh entry answers at once. Otherwise the row decides: no row or an incomplete one means no
   key, a complete one that does not decrypt fails, and a decrypted one is answered and cached.
   */
  lemma ResolutionAnswers(w: World, id: nat, o: string, p: string, ttl: nat)
    requires id !in w.pending
    ensures var key, begun := CacheKey(o, p), Step(w, BeginResolve(id, o, p), ttl);
      var ended := Step(begun, EndResolve(id), ttl);
      if key in w.cache && w.cache[key].expiresAt > w.now then
        |begun.answers| == |w.answers| + 1 && begun.answers[|w.answers|].value == w.cache[key].value && begun.cache == w.cache
      else if (o, p) in w.rows && w.rows[(o, p)].complete && w.rows[(o, p)].plaintext.None? then
        |begun.failures| == |w.failures| + 1 && ended.answers == w.answers && ended.cache == w.cache
      else
        var value := if (o, p) in w.rows && w.rows[(o, p)].complete then w.rows[(o, p)].plaintext else None;
        && begun.answers == w.answers && |ended.answers| == |w.answers| + 1 && ended.answers[|w.answers|].value == value
        && ended.answers[|w.answers|].organization == o && ended.answers[|w.answers|].provider == p
        && key in ended.cache && ended.cache[key].value == value && ended.cache[key].expiresAt == w.now + ttl
  {
    hide CacheKey;
  }

  // -- invalidation --------------------------------------------------------------------------------------------

  /** From this world on, nothing under the key is older than step n: neither the entry nor any later answer. */
  ghost predicate ServesSince(w: World, later: World, key: string, n: nat) {
    && (key in later.cache ==> later.cache[key].born >= n)
    && |w.answers| <= |later.answers|
    && (forall i :: |w.answers| <= i < |later.answers| && CacheKey(later.answers[i].organization, later.answers[i].provider) == key ==>
          later.answers[i].born >= n)
  }

  /** No resolution in flight will store under the key a value it read before step n. */
  ghost predicate NothingOldInFlight(w: World, key: string, n: nat) {
    forall id {:trigger id in w.pending} :: id in w.pending && CacheKey(w.pending[id].organization, w.pending[id].provider) == key ==> w.pending[id].born >= n
  }

  lemma StepServesSince(w: World, later: World, action: Action, ttl: nat, key: string, n: nat)
    requires ServesSince(w, later, key, n) && NothingOldInFlight(later, key, n) && later.steps >= n
    ensures ServesSince(w, Step(later, action, ttl), key, n) && NothingOldInFlight(Step(later, action, ttl), key, n)
    ensures Step(later, action, ttl).steps >= n
  {
    hide CacheKey, Decode;
  }

  lemma {:induction false} RunServesSince(w: World, actions: seq<Action>, ttl: nat, key: string, n: nat)
    requires key !in w.cache && NothingOldInFlight(w, key, n) && w.steps >= n
    ensures var later := Run(w, actions, ttl); ServesSince(w, later, key, n) && NothingOldInFlight(later, key, n) && later.steps >= n
  {
    hide Step, CacheKey;
    if actions != [] {
      RunServesSince(w, actions[..|actions| - 1], ttl, key, n);
      StepServesSince(w, Run(w, actions[..|actions| - 1], ttl), actions[|actions| - 1], ttl, key, n);
    }
  }

  /** Everything in flight was read at an earlier step. */
  lemma InFlightIsOld(rows: map<(string, string), Row>, now: int, actions: seq<Action>, ttl: nat, id: nat)
    requires id in Run(Initial(rows, now), actions, ttl).pending
    ensures Run(Initial(rows, now), actions, ttl).pending[id].born < |actions|
  {
    hide Run;
    RunIsSound(rows, now, actions, ttl);
    assert PendingOk(Initial(rows, now), actions, ttl, Run(Initial(rows, now), actions, ttl).pending[id]);
  }

  /** The resolution in flight stores and answers with its old value. */
  lemma InFlightEndsOld(w: World, id: nat, ttl: nat, n: nat)
    requires id in w.pending && w.pending[id].born < n
    ensures !ServesSince(w, Run(w, [EndResolve(id)], ttl), CacheKey(w.pending[id].organization, w.pending[id].provider), n)
  {
    assert [EndResolve(id)][..0] == [];
    assert Run(w, [EndResolve(id)], ttl) == Step(Run(w, [], ttl), EndResolve(id), ttl);
    assert CacheKey(w.pending[id].organization, w.pending[id].provider) in Run(w, [EndResolve(id)], ttl).cache;
  }

  /**
   Invalidating one pair after `actions` makes every later entry and answer under its key come
   from a later read, in all continuations, if and only if no resolution with that key is in flight.
   */
  lemma InvalidationIsExact(rows: map<(string, string), Row>, now: int, actions: seq<Action>, ttl: nat, o: string, p: string)
    requires o != "" && p != ""
    ensures var w := Run(Initial(rows, now), actions, ttl);
      Step(w, Drop(Some(o), Some(p)), ttl).cache == w.cache - {CacheKey(o, p)}
    ensures var w := Run(Initial(rows, now), actions, ttl);
      var dropped := Step(w, Drop(Some(o), Some(p)), ttl);
      (forall later :: ServesSince(dropped, Run(dropped, later, ttl), CacheKey(o, p), |actions|)) <==>
      (forall id :: id in w.pending ==> CacheKey(w.pending[id].organization, w.pending[id].provider) != CacheKey(o, p))
  {
    hide Run, CacheKey;
    var w := Run(Initial(rows, now), actions, ttl);
    var dropped, key := Step(w, Drop(Some(o), Some(p)), ttl), CacheKey(o, p);
    StepsAreCounted(rows, now, actions, ttl);
    if forall id :: id in w.pending ==> CacheKey(w.pending[id].organization, w.pending[id].provider) != key {
      forall later ensures ServesSince(dropped, Run(dropped, later, ttl), key, |actions|) {
        RunServesSince(dropped, later, ttl, key, |actions|);
      }
    } else {
      var id :| id in w.pending && CacheKey(w.pending[id].organization, w.pending[id].provider) == key;
      InFlightIsOld(rows, now, actions, ttl, id);
      InFlightEndsOld(dropped, id, ttl, |actions|);
    }
  }

  lemma StepsAreCounted(rows: map<(string, string), Row>, now: int, actions: seq<Action>, ttl: nat)
    ensures Run(Initial(rows, now), actions, ttl).steps == |actions|
  {
    hide Run;
    RunIsSound(rows, now, actions, ttl);
  }

  /** Clearing the whole cache does so for every key if and only if nothing at all is in flight. */
  lemma ClearingIsExact(rows: map<(string, string), Row>, now: int, actions: seq<Action>, ttl: nat, o: Option<string>, p: Option<string>)
    requires o == None || o == Some("") || p == None || p == Some("")
    ensures var w := Run(Initial(rows, now), actions, ttl);
      var dropped := Step(w, Drop(o, p), ttl);
      (forall later, key :: ServesSince(dropped, Run(dropped, later, ttl), key, |actions|)) <==> w.pending == map[]
  {
    hide Run, CacheKey;
    var w := Run(Initial(rows, now), actions, ttl);
    var dropped := Step(w, Drop(o, p), ttl);
    StepsAreCounted(rows, now, actions, ttl);
    if w.pending == map[] {
      forall later, key ensures ServesSince(dropped, Run(dropped, later, ttl), key, |actions|) {
        RunServesSince(dropped, later, ttl, key, |actions|);
      }
    } else {
      var id :| id in w.pending;
      InFlightIsOld(rows, now, actions, ttl, id);
      InFlightEndsOld(dropped, id, ttl, |actions|);
    }
  }

  /** An input that shows the race: the row is read, changed and invalidated, and then the old key is stored. */
  lemma InvalidationMissesReadsInFlight(w: World, o: string, p: string, id: nat, ttl: nat, oldKey: string, newKey: string)
    requires ttl > 0 && id !in w.pending && !Fresh(w.cache, CacheKey(o, p), w.now) && o != "" && p != "" && oldKey != newKey
    requires (o, p) in w.rows && w.rows[(o, p)] == Row(true, Some(oldKey))
    ensures var read := StartResolve(w, id, o, p);
      var changed := Invalidated(read.(rows := read.rows[(o, p) := Row(true, Some(newKey))]), Some(o), Some(p));
      var stored := FinishResolve(changed, id, ttl);
      && Fresh(stored.cache, CacheKey(o, p), stored.now) && stored.cache[CacheKey(o, p)].value == Some(oldKey)
      && Decode(stored.rows, o, p) == Value(Some(newKey))
  {}

  // -- the object ----------------------------------------------------------------------------------------------

  /** A value some row decode gave for the key at that time. */
  datatype Reading = Reading(key: string, value: Option<string>, at: int)

  class CredentialResolver {
    var cache: map<string, Entry>
    const ttl: nat
    /** Every value ever decoded from a row, and when. */
    ghost var readings: set<Reading>

    /** Each entry is a reading, and expires a time to live after it. */
    ghost predicate Valid()
      reads this
    {
      forall key :: key in cache ==>
        Reading(key, cache[key].value, cache[key].readAt) in readings && cache[key].expiresAt == cache[key].readAt + ttl
    }

    constructor (ttl: nat)
      ensures Valid() && readings == {} && this.ttl == ttl
    {
      cache, readings, this.ttl := map[], {}, ttl;
    }

    /**
     One undisturbed resolution. What it returns was decoded from a row of the same key now or less
     than a time to live ago, and is what the cache holds afterwards; while the entry is fresh no row
     is read, and a row that cannot be decrypted leaves no trace.
     */
    method Resolve(o: string, p: string, rows: map<(string, string), Row>, now: int, born: nat) returns (r: Decoded)
      requires Valid()
      modifies this`cache, this`readings
      ensures Valid()
      ensures r.Value? ==> exists at :: Reading(CacheKey(o, p), r.value, at) in readings && (at == now || now < at + ttl)
      ensures r.Value? ==>
        var key := CacheKey(o, p);
        key in cache && cache[key].value == r.value && (ttl > 0 ==> Fresh(cache, key, now))
      ensures old(CacheKey(o, p) in cache && cache[CacheKey(o, p)].expiresAt > now) ==>
        r == Value(old(cache)[CacheKey(o, p)].value) && cache == old(cache) && readings == old(readings)
      ensures !old(CacheKey(o, p) in cache && cache[CacheKey(o, p)].expiresAt > now) ==>
        r == if (o, p) !in rows || !rows[(o, p)].complete then Value(None)
             else if rows[(o, p)].plaintext.None? then Undecryptable
             else Value(rows[(o, p)].plaintext)
      ensures r.Undecryptable? ==> cache == old(cache) && readings == old(readings) && Decode(rows, o, p) == Undecryptable
      ensures readings == old(readings) ||
        (Decode(rows, o, p).Value? && readings == old(readings) + {Reading(CacheKey(o, p), Decode(rows, o, p).value, now)})
      ensures forall key :: key != CacheKey(o, p) ==> (key in cache <==> key in old(cache)) && (key in cache ==> cache[key] == old(cache)[key])
    {
      var key := CacheKey(o, p);
      if key in cache && cache[key].expiresAt > now {
        return Value(cache[key].value);
      }
      r := Decode(rows, o, p);
      if r.Value? {
        cache := cache[key := Entry(r.value, now + ttl, born, now, now)];
        readings := readings + {Reading(key, r.value, now)};
      }
    }

    /** Afterwards a resolution of the pair can only be answered from its row. */
    method Invalidate(organization: Option<string>, provider: Option<string>)
      requires Valid()
      modifies this`cache
      ensures Valid()
      ensures forall key :: key in cache ==> key in old(cache) && cache[key] == old(cache)[key]
      ensures organization.Some? && provider.Some? && organization.value != "" && provider.value != "" ==>
        cache == old(cache) - {CacheKey(organization.value, provider.value)}
      ensures organization.Some? && provider.Some? ==> CacheKey(organization.value, provider.value) !in cache
      ensures organization.None? || provider.None? ==> cache == map[]
    {
      if organization.Some? && organization.value != "" && provider.Some? && provider.value != "" {
        cache := cache - {CacheKey(organization.value, provider.value)};
      } else {
        cache := map[];
      }
    }
  }
}
