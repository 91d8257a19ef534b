/** The lock that service calls take on a Redis key: set-if-absent with a lease, compare-and-delete to release. */
module LeasedLock {
  import opened Wrappers

  type Process = nat
  type LockToken = nat

  /** A stored lock; from `expiresAt` on the key does not exist. */
  datatype Entry = Entry(token: LockToken, expiresAt: int)

  predicate Held(key: Option<Entry>, now: int) {
    key.Some? && now < key.value.expiresAt
  }

  /** `SET key token PX ttl NX`. */
  function SetIfAbsent(key: Option<Entry>, now: int, token: LockToken, ttl: nat): Option<Entry> {
    if Held(key, now) then key else Some(Entry(token, now + ttl))
  }

  /** The release script: delete the key if it holds this token. */
  function CompareAndDelete(key: Option<Entry>, now: int, token: LockToken): Option<Entry> {
    if Held(key, now) && key.value.token == token then None else key
  }

  /** One lock key in Redis. */
  class Lock {
    var key: Option<Entry>
    var now: int
    var nextToken: LockToken

    /** `acquireLock`, under a token that nobody has used. */
    method AcquireLock(ttl: nat) returns (token: Option<LockToken>)
      modifies this
      ensures now == old(now) && nextToken == old(nextToken) + 1
      ensures key == SetIfAbsent(old(key), now, old(nextToken), ttl)
      ensures token == if Held(old(key), now) then None else Some(old(nextToken))
    {
      var drawn := nextToken;
      nextToken := nextToken + 1;
      if Held(key, now) {
        return None;
      }
      key := Some(Entry(drawn, now + ttl));
      return Some(drawn);
    }

    /** `releaseLock`; the result counts the keys deleted. */
    method ReleaseLock(token: Option<LockToken>) returns (released: nat)
      modifies this
      ensures now == old(now) && nextToken == old(nextToken)
      ensures key == if token.None? then old(key) else CompareAndDelete(old(key), now, token.value)
      ensures released == 1 <==> token.Some? && Held(old(key), now) && old(key).value.token == token.value
      ensures released <= 1
    {
      if token.None? {
        return 0;
      }
      if Held(key, now) && key.value.token == token.value {
        key := None;
        return 1;
      }
      return 0;
    }
  }

  // ----- any number of processes, any timing -----

  /** A process between a successful acquire and its release: its token, and when its lease runs out. */
  datatype Section = Section(token: LockToken, until: int)

  datatype World = World(key: Option<Entry>, now: int, nextToken: LockToken, sections: map<Process, Section>)

  datatype Action =
    | Acquires(process: Process, ttl: nat)
    | Releases(process: Process)
    | TimePasses(ms: nat)

  function Act(w: World, action: Action): World {
    match action
    case Acquires(p, ttl) =>
      if p in w.sections then w
      else
        w.(key := SetIfAbsent(w.key, w.now, w.nextToken, ttl),
           nextToken := w.nextToken + 1,
           sections := if Held(w.key, w.now) then w.sections else w.sections[p := Section(w.nextToken, w.now + ttl)])
    case Releases(p) =>
      if p !in w.sections then w
      else w.(key := CompareAndDelete(w.key, w.now, w.sections[p].token), sections := w.sections - {p})
    case TimePasses(ms) => w.(now := w.now + ms)
  }

  ghost predicate IsHistory(ws: seq<World>, actions: seq<Action>) {
    && |ws| == |actions| + 1
    && ws[0] == World(None, ws[0].now, 0, map[])
    && forall i :: 0 <= i < |actions| ==> ws[i + 1] == Act(ws[i], actions[i])
  }

  /** Tokens are used once, and a section outlives its entry in Redis only when its lease has run out. */
  ghost predicate LockInv(w: World) {
    && (w.key.Some? ==> w.key.value.token < w.nextToken)
    && (forall p :: p in w.sections ==> w.sections[p].token < w.nextToken)
    && (forall p, q :: p in w.sections && q in w.sections && w.sections[p].token == w.sections[q].token ==> p == q)
    && (forall p, q :: p in w.sections && q in w.sections && w.sections[p].token < w.sections[q].token ==> w.sections[p].until <= w.now)
    && (forall p :: p in w.sections && w.key.Some? && w.key.value.token == w.sections[p].token ==>
          w.key.value.expiresAt == w.sections[p].until)
    && (forall p :: p in w.sections && w.now < w.sections[p].until ==> w.key == Some(Entry(w.sections[p].token, w.sections[p].until)))
  }

  lemma {:induction false} HistoryKeeps(ws: seq<World>, actions: seq<Action>, i: nat)
    requires IsHistory(ws, actions) && i < |ws|
    ensures LockInv(ws[i])
  {
    if i > 0 {
      HistoryKeeps(ws, actions, i - 1);
      ActionKeeps(ws[i - 1], actions[i - 1]);
    }
  }

  lemma ActionKeeps(w: World, action: Action)
    requires LockInv(w)
    ensures LockInv(Act(w, action))
  {
    match action
    case Acquires(p, ttl) => AcquireKeeps(w, p, ttl);
    case Releases(p) => ReleaseKeeps(w, p);
    case TimePasses(ms) =>
  }

  lemma AcquireKeeps(w: World, p: Process, ttl: nat)
    requires LockInv(w)
    ensures LockInv(Act(w, Acquires(p, ttl)))
  {
  }

  lemma ReleaseKeeps(w: World, p: Process)
    requires LockInv(w)
    ensures LockInv(Act(w, Releases(p)))
  {
  }

  /** While `q` holds a lease, no other process's release touches its lock, however late that release comes. */
  lemma ReleaseSparesSuccessor(ws: seq<World>, actions: seq<Action>, i: nat, p: Process, q: Process)
    requires IsHistory(ws, actions) && i < |actions| && actions[i] == Releases(p) && p != q
    requires q in ws[i].sections && ws[i].now < ws[i].sections[q].until
    ensures ws[i + 1].key == ws[i].key == Some(Entry(ws[i].sections[q].token, ws[i].sections[q].until))
    ensures q in ws[i + 1].sections
  {
    HistoryKeeps(ws, actions, i);
  }

  /** A release frees the lock exactly when the process's own lease is still running. */
  lemma ReleaseFreesIff(ws: seq<World>, actions: seq<Action>, i: nat, p: Process)
    requires IsHistory(ws, actions) && i < |actions| && actions[i] == Releases(p) && p in ws[i].sections
    ensures ws[i + 1].key != ws[i].key <==> ws[i].now < ws[i].sections[p].until
    ensures ws[i + 1].key != ws[i].key ==> ws[i + 1].key.None?
  {
    HistoryKeeps(ws, actions, i);
  }

  /** Nobody is still inside when its lease runs out. */
  ghost predicate Prompt(w: World) {
    forall p :: p in w.sections ==> w.now < w.sections[p].until
  }

  /** If everybody leaves within its lease, critical sections never overlap. */
  lemma SectionsExclude(ws: seq<World>, actions: seq<Action>, i: nat, p: Process, q: Process)
    requires IsHistory(ws, actions) && i < |ws| && Prompt(ws[i])
    requires p in ws[i].sections && q in ws[i].sections
    ensures p == q
  {
    HistoryKeeps(ws, actions, i);
  }

  /** When two do overlap, the one that entered first has outstayed its lease. */
  lemma OverlapMeansLate(ws: seq<World>, actions: seq<Action>, i: nat, p: Process, q: Process)
    requires IsHistory(ws, actions) && i < |ws| && p in ws[i].sections && q in ws[i].sections && p != q
    ensures ws[i].sections[p].token != ws[i].sections[q].token
    ensures ws[i].sections[p].token < ws[i].sections[q].token ==> ws[i].sections[p].until <= ws[i].now
  {
    HistoryKeeps(ws, actions, i);
  }

  /** And outstaying it is enough: with any positive lease, the next process gets in beside the late one. */
  lemma LateHolderOverlaps(ttl: nat) returns (ws: seq<World>, actions: seq<Action>)
    ensures IsHistory(ws, actions) && |ws| == 4
    ensures 0 in ws[3].sections && 1 in ws[3].sections && ws[3].now == ws[3].sections[0].until
  {
    var w0 := World(None, 0, 0, map[]);
    var w1 := Act(w0, Acquires(0, ttl));
    var w2 := Act(w1, TimePasses(ttl));
    var w3 := Act(w2, Acquires(1, ttl));
    ws, actions := [w0, w1, w2, w3], [Acquires(0, ttl), TimePasses(ttl), Acquires(1, ttl)];
  }
}
