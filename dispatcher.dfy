/**
 * The path-matching dispatcher of the mock status server: an ordered list
 * of (path pattern, scripted responses) entries. The first entry whose
 * pattern matches a request path answers with its current response; an
 * entry's last response repeats for ever. Unmatched paths get a 404.
 * Pattern matching itself is a parameter (`matches(pattern, path)`).
 */
module Dispatcher {
  import opened Wrappers

  datatype MockResponse = MockResponse(responseCode: int, headers: seq<(string, string)>, body: string)

  /** The reply to a path no entry matches. */
  function NotFound(path: string): (r: MockResponse)
    ensures r.responseCode == 404 && r.body == "Not found: " + path
  {
    MockResponse(404, [("Content-Type", "application/json")], "Not found: " + path)
  }

  /** The abstract value of one configuration entry. */
  datatype Entry = Entry(pattern: string, responses: seq<MockResponse>)

  /** Every entry still holds at least one response. */
  ghost predicate WellFormed(entries: seq<Entry>) {
    forall i :: 0 <= i < |entries| ==> entries[i].responses != []
  }

  function PatternsOf(entries: seq<Entry>): seq<string> {
    seq(|entries|, i requires 0 <= i < |entries| => entries[i].pattern)
  }

  /** The index of the first pattern matching `path` (`firstOrNull`), if any. */
  function FirstMatch(matches: (string, string) -> bool, patterns: seq<string>, path: string): (r: Option<nat>)
    ensures r.Some? ==> r.value < |patterns| && matches(patterns[r.value], path)
    ensures r.Some? ==> forall j :: 0 <= j < r.value ==> !matches(patterns[j], path)
    ensures r.None? ==> forall j :: 0 <= j < |patterns| ==> !matches(patterns[j], path)
  {
    if patterns == [] then None
    else if matches(patterns[0], path) then Some(0)
    else match FirstMatch(matches, patterns[1..], path)
      case None => None
      case Some(k) => Some(k + 1)
  }

  /** What is left of a response list after its head has been served: the last one stays. */
  function Advance(responses: seq<MockResponse>): seq<MockResponse> {
    if |responses| > 1 then responses[1..] else responses
  }

  /** One request: the reply and the entries afterwards. */
  ghost function Respond(matches: (string, string) -> bool, entries: seq<Entry>, path: string)
    : (r: (MockResponse, seq<Entry>))
    requires WellFormed(entries)
    ensures WellFormed(r.1) && PatternsOf(r.1) == PatternsOf(entries)
    ensures match FirstMatch(matches, PatternsOf(entries), path)
      case None => r.0 == NotFound(path) && r.1 == entries
      case Some(k) =>
        && r.0 == entries[k].responses[0]
        && r.1[k].responses == Advance(entries[k].responses)
        && forall j :: 0 <= j < |entries| && j != k ==> r.1[j] == entries[j]
  {
    match FirstMatch(matches, PatternsOf(entries), path)
    case None => (NotFound(path), entries)
    case Some(k) =>
      var e := entries[k];
      (e.responses[0], entries[k := Entry(e.pattern, Advance(e.responses))])
  }

  /** The replies to `n` successive requests for the same path. */
  ghost function RespondTimes(matches: (string, string) -> bool, entries: seq<Entry>, path: string, n: nat)
    : seq<MockResponse>
    requires WellFormed(entries)
    decreases n
  {
    if n == 0 then []
    else
      var (r, entries') := Respond(matches, entries, path);
      [r] + RespondTimes(matches, entries', path, n - 1)
  }

  function Min(a: nat, b: nat): nat { if a <= b then a else b }

  /**
   * Scripted responses are served in the order given and the last one
   * repeats: the i-th of `n` successive requests to a path whose first match
   * is entry k gets that entry's response at index min(i, last).
   */
  lemma {:induction false} RespondTimesFollowsScript(
    matches: (string, string) -> bool, entries: seq<Entry>, path: string, n: nat, k: nat)
    requires WellFormed(entries)
    requires FirstMatch(matches, PatternsOf(entries), path) == Some(k)
    ensures |RespondTimes(matches, entries, path, n)| == n
    ensures forall i :: 0 <= i < n ==>
              RespondTimes(matches, entries, path, n)[i]
              == entries[k].responses[Min(i, |entries[k].responses| - 1)]
    decreases n
  {
    if n > 0 {
      var (r, entries') := Respond(matches, entries, path);
      RespondTimesFollowsScript(matches, entries', path, n - 1, k);
      var rest := RespondTimes(matches, entries', path, n - 1);
      var out := RespondTimes(matches, entries, path, n);
      var script := entries[k].responses;
      assert out == [r] + rest;
      forall i | 0 <= i < n
        ensures out[i] == script[Min(i, |script| - 1)]
      {
        if i > 0 {
          assert out[i] == rest[i - 1];
        }
      }
    }
  }

  /** With no matching entry, every request is answered 404 and nothing changes. */
  lemma {:induction false} UnmatchedPathIsNotFound(
    matches: (string, string) -> bool, entries: seq<Entry>, path: string, n: nat)
    requires WellFormed(entries)
    requires forall j :: 0 <= j < |entries| ==> !matches(entries[j].pattern, path)
    ensures RespondTimes(matches, entries, path, n) == seq(n, _ => NotFound(path))
  {
    if n > 0 {
      UnmatchedPathIsNotFound(matches, entries, path, n - 1);
    }
  }

  /** One configuration entry; its response list shrinks as responses are served. */
  class PathConfig {
    const pattern: string
    var responses: seq<MockResponse>

    constructor (pattern: string, responses: seq<MockResponse>)
      ensures this.pattern == pattern && this.responses == responses
    {
      this.pattern := pattern;
      this.responses := responses;
    }

    /** Serves the head response; drops it only while more than one remains. */
    method NextResponse() returns (r: MockResponse)
      requires responses != []
      modifies this
      ensures r == old(responses)[0]
      ensures responses == Advance(old(responses)) && responses != []
      ensures |old(responses)| > 1 ==> responses == old(responses)[1..]
      ensures |old(responses)| == 1 ==> responses == old(responses)
    {
      r := responses[0];
      if |responses| > 1 {
        responses := responses[1..];
      }
    }
  }

  class PathMatchingDispatcher {
    const matches: (string, string) -> bool
    var configurations: seq<PathConfig>
    ghost var entries: seq<Entry>

    ghost predicate Valid()
      reads this, configurations
    {
      && |entries| == |configurations|
      && (forall i :: 0 <= i < |configurations| ==>
            entries[i] == Entry(configurations[i].pattern, configurations[i].responses))
      && (forall i, j :: 0 <= i < j < |configurations| ==> configurations[i] != configurations[j])
      && WellFormed(entries)
    }

    constructor (matches: (string, string) -> bool)
      ensures Valid() && this.matches == matches && entries == []
    {
      this.matches := matches;
      configurations := [];
      entries := [];
    }

    function Patterns(): (ps: seq<string>)
      reads this
    {
      var cs := configurations;
      seq(|cs|, i requires 0 <= i < |cs| => cs[i].pattern)
    }

    /** Appends a new entry, refusing an empty response list; existing entries are untouched. */
    method AddConfig(path: string, responses: seq<MockResponse>) returns (outcome: Outcome)
      requires Valid()
      modifies this
      ensures Valid()
      ensures outcome.Pass? <==> responses != []
      ensures outcome.Fail? ==>
                && outcome.message == "MockResponse must be provided in the configuration"
                && entries == old(entries) && configurations == old(configurations)
      ensures outcome.Pass? ==> entries == old(entries) + [Entry(path, responses)]
      ensures outcome.Pass? ==> |configurations| == |old(configurations)| + 1
      ensures outcome.Pass? ==> configurations[..|old(configurations)|] == old(configurations)
      ensures outcome.Pass? ==> fresh(configurations[|old(configurations)|])
    {
      if responses == [] {
        return Fail("MockResponse must be provided in the configuration");
      }
      var config := new PathConfig(path, responses);
      configurations := configurations + [config];
      entries := entries + [Entry(path, responses)];
      outcome := Pass;
    }

    /** Forgets every entry. */
    method Shutdown()
      requires Valid()
      modifies this
      ensures Valid() && entries == [] && configurations == []
    {
      configurations := [];
      entries := [];
    }

    /** Answers a request for `path`: the first matching entry's next response, or a 404. */
    method ResponseFor(path: string) returns (r: MockResponse)
      requires Valid()
      modifies this, configurations
      ensures Valid() && configurations == old(configurations)
      ensures (r, entries) == Respond(matches, old(entries), path)
    {
      assert forall i :: 0 <= i < |entries| ==> Patterns()[i] == PatternsOf(entries)[i];
      assert Patterns() == PatternsOf(entries);
      var found := FirstMatch(matches, Patterns(), path);
      match found
      case None =>
        r := NotFound(path);
      case Some(k) =>
        var config := configurations[k];
        r := config.NextResponse();
        entries := entries[k := Entry(config.pattern, config.responses)];
    }
  }

  /**
   * The scripted delivery check of the compensation scenario: answers
   * "false" and then "true" for the same path, and "true" from then on.
   */
  lemma {:induction false} FalseThenTrue(
    matches: (string, string) -> bool, entries: seq<Entry>, path: string, k: nat,
    no: MockResponse, yes: MockResponse)
    requires WellFormed(entries)
    requires FirstMatch(matches, PatternsOf(entries), path) == Some(k)
    requires entries[k].responses == [no, yes]
    ensures RespondTimes(matches, entries, path, 3) == [no, yes, yes]
  {
    RespondTimesFollowsScript(matches, entries, path, 3, k);
  }
}
