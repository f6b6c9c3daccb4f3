// internal/missions: the per-agent hash-chained log.
module Missions {
  import opened Basics
  import opened Crypto
  import Json
  import opened Text

  /** One log entry. `at` is the instant's RFC 3339 text, the only form in which the hash sees it. */
  datatype Entry = Entry(kind: string, requestID: string, at: string, prev: string, hash: string)

  type Logs = map<string, seq<Entry>>

  function HashedText(e: Entry): Bytes {
    Json.Marshal(Json.Obj(
      Json.Member("Kind", Json.Str(e.kind),
      Json.Member("RequestID", Json.Str(e.requestID),
      Json.Member("Prev", Json.Str(e.prev),
      Json.Member("At", Json.Str(e.at),
      Json.NoMembers))))))
  }

  function EntryHash(c: Primitives, e: Entry): (h: string)
    ensures h != ""
  {
    HexEncode(c.sha256(HashedText(e)))
  }

  /** Append: the entry is linked to the last hash, if there is one, and sealed with its own. */
  function Appended(c: Primitives, chain: seq<Entry>, e: Entry): seq<Entry> {
    var linked := if chain == [] then e else e.(prev := chain[|chain| - 1].hash);
    chain + [linked.(hash := EntryHash(c, linked))]
  }

  function ChainOf(logs: Logs, agent: string): seq<Entry> {
    if agent in logs then logs[agent] else []
  }

  function AppendedTo(c: Primitives, logs: Logs, agent: string, e: Entry): Logs {
    logs[agent := Appended(c, ChainOf(logs, agent), e)]
  }

  // ---------------------------------------------------------------- commitment

  function HeadHash(chain: seq<Entry>): string {
    if chain == [] then "" else chain[|chain| - 1].hash
  }

  /** Every entry is sealed with its own hash and names the hash before it; the first names none. */
  ghost predicate Linked(c: Primitives, chain: seq<Entry>)
    decreases |chain|
  {
    chain != [] ==>
      var e, rest := chain[|chain| - 1], chain[..|chain| - 1];
      e.hash == EntryHash(c, e) && e.prev == HeadHash(rest) && Linked(c, rest)
  }

  lemma AppendKeepsLinked(c: Primitives, chain: seq<Entry>, e: Entry)
    requires Linked(c, chain) && (chain == [] ==> e.prev == "")
    ensures Linked(c, Appended(c, chain, e))
  {
  }

  /** Every byte string hashed into a chain. */
  function HashedTexts(chain: seq<Entry>): set<Bytes> {
    set e | e in chain :: HashedText(e)
  }

  lemma EntryPinned(c: Primitives, e: Entry, f: Entry)
    requires e.hash == EntryHash(c, e) && f.hash == EntryHash(c, f) && e.hash == f.hash
    ensures e == f || Collision(c.sha256, {HashedText(e)}, {HashedText(f)})
  {
    var x, y := HashedText(e), HashedText(f);
    HexInjective(c.sha256(x), c.sha256(y));
    SameHash(c.sha256, {x}, {y}, x, y);
    if x == y {
      SameTextSameEntry(e, f);
    }
  }

  lemma SameTextSameEntry(e: Entry, f: Entry)
    requires HashedText(e) == HashedText(f)
    ensures e.kind == f.kind && e.requestID == f.requestID && e.at == f.at && e.prev == f.prev
  {
    Json.MarshalInjective(
      Json.Obj(Json.Member("Kind", Json.Str(e.kind), Json.Member("RequestID", Json.Str(e.requestID),
        Json.Member("Prev", Json.Str(e.prev), Json.Member("At", Json.Str(e.at), Json.NoMembers))))),
      Json.Obj(Json.Member("Kind", Json.Str(f.kind), Json.Member("RequestID", Json.Str(f.requestID),
        Json.Member("Prev", Json.Str(f.prev), Json.Member("At", Json.Str(f.at), Json.NoMembers))))));
  }

  /**
   * The head commits to the whole history: two linked chains with one head hash are the same chain, or two
   * of the texts hashed into them collide under SHA-256.
   */
  lemma {:induction false} HeadCommits(c: Primitives, a: seq<Entry>, b: seq<Entry>)
    requires Linked(c, a) && Linked(c, b) && a != [] && b != []
    requires a[|a| - 1].hash == b[|b| - 1].hash
    ensures a == b || Collision(c.sha256, HashedTexts(a), HashedTexts(b))
    decreases |a|
  {
    var e, f := a[|a| - 1], b[|b| - 1];
    var s, t := a[..|a| - 1], b[..|b| - 1];
    assert a == s + [e] && b == t + [f];
    EntryPinned(c, e, f);
    if e != f {
      CollisionWidens(c.sha256, {HashedText(e)}, {HashedText(f)}, HashedTexts(a), HashedTexts(b));
    } else {
      HeadIsEmptyOnlyAtStart(c, s);
      HeadIsEmptyOnlyAtStart(c, t);
      if s != [] {
        HeadCommits(c, s, t);
        if s != t {
          CollisionWidens(c.sha256, HashedTexts(s), HashedTexts(t), HashedTexts(a), HashedTexts(b));
        }
      }
    }
  }

  lemma HeadIsEmptyOnlyAtStart(c: Primitives, chain: seq<Entry>)
    requires Linked(c, chain)
    ensures HeadHash(chain) == "" <==> chain == []
  {
  }

  /** The same for chains that may be empty. */
  lemma SameHeadSameChain(c: Primitives, a: seq<Entry>, b: seq<Entry>)
    requires Linked(c, a) && Linked(c, b) && HeadHash(a) == HeadHash(b)
    ensures a == b || Collision(c.sha256, HashedTexts(a), HashedTexts(b))
  {
    HeadIsEmptyOnlyAtStart(c, a);
    HeadIsEmptyOnlyAtStart(c, b);
    if a != [] {
      HeadCommits(c, a, b);
    }
  }

  /** Append takes a first entry's own `prev`; a caller that sets one gets a shorter chain with the same head. */
  lemma CallerPrevBreaksCommitment(c: Primitives, e: Entry, f: Entry)
    ensures var long := Appended(c, Appended(c, [], e), f);
      var short := Appended(c, [], f.(prev := long[0].hash));
      long[|long| - 1].hash == short[|short| - 1].hash && |long| != |short|
  {
  }

  // ---------------------------------------------------------------- growth

  /** Agent by agent, the earlier chain is a prefix of the later one. */
  ghost predicate Extends(earlier: Logs, later: Logs) {
    forall agent :: agent in earlier ==> agent in later && earlier[agent] <= later[agent]
  }

  ghost predicate AllLinked(c: Primitives, logs: Logs) {
    forall agent :: agent in logs ==> Linked(c, logs[agent])
  }

  lemma AppendGrows(c: Primitives, logs: Logs, agent: string, e: Entry)
    requires AllLinked(c, logs) && e.prev == ""
    ensures var more := AppendedTo(c, logs, agent, e);
      AllLinked(c, more) && Extends(logs, more)
  {
  }

  class Log {
    const c: Primitives
    var byAgent: Logs

    constructor (c: Primitives)
      ensures this.c == c && byAgent == map[]
    {
      this.c := c;
      byAgent := map[];
    }

    method Append(agentID: string, entry: Entry)
      modifies this
      ensures byAgent == AppendedTo(c, old(byAgent), agentID, entry)
    {
      var e := entry;
      var chain := if agentID in byAgent then byAgent[agentID] else [];
      if |chain| > 0 {
        e := e.(prev := chain[|chain| - 1].hash);
      }
      e := e.(hash := EntryHash(c, e));
      byAgent := byAgent[agentID := chain + [e]];
    }

    method Export() returns (out: Logs)
      ensures out == byAgent
    {
      out := map[];
      var left := byAgent.Keys;
      while left != {}
        invariant left <= byAgent.Keys
        invariant out == map agent | agent in byAgent.Keys - left :: byAgent[agent]
        decreases |left|
      {
        var agent :| agent in left;
        out := out[agent := byAgent[agent]];
        left := left - {agent};
      }
    }
  }
}
