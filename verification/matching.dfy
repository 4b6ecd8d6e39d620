/**
 * Rule matching of dispatcher.js: `tryMatch` and the forward scan of the
 * ordered mapping table done by `dispatch`.
 */
module Matching {
  import opened Wrappers
  import opened Interpolation

  /** One routing rule.  `methods` is the optional method filter (`None` when
      the mapping has no method list), `exec` the rule's compiled pattern
      (`mapping.match.exec`, foreign and so a parameter), `kind` the handler
      type that the configuration resolves the mapping to, and `redirect` the
      rule's redirect template. */
  datatype Mapping = Mapping(
    methods: Option<seq<string>>,
    exec: string -> Option<Captures>,
    kind: string,
    redirect: Value)

  /** A successful scan: the index of the rule that matched and its captures. */
  datatype Hit = Hit(index: nat, captures: Captures)

  /** `tryMatch(mapping, method, url)`: a method list that does not contain the
      request method rules the mapping out whatever its pattern says (an empty
      list rules out every method); otherwise the pattern decides. */
  function TryMatch(mapping: Mapping, verb: string, url: string): (r: Option<Captures>)
    ensures mapping.methods.Some? && verb !in mapping.methods.value ==> r == None
    ensures mapping.methods.None? || verb in mapping.methods.value ==> r == mapping.exec(url)
  {
    if mapping.methods.Some? && verb !in mapping.methods.value then None
    else mapping.exec(url)
  }

  /** The first rule at or after `from` that matches: the lowest such index. */
  function FirstMatch(mappings: seq<Mapping>, verb: string, url: string, from: nat): (r: Option<Hit>)
    decreases |mappings| - from
    ensures r.Some? ==> from <= r.value.index < |mappings|
    ensures r.Some? ==> TryMatch(mappings[r.value.index], verb, url) == Some(r.value.captures)
    ensures r.Some? ==> forall j :: from <= j < r.value.index ==> TryMatch(mappings[j], verb, url) == None
    ensures r.None? <==> forall j :: from <= j < |mappings| ==> TryMatch(mappings[j], verb, url) == None
  {
    if from >= |mappings| then None
    else
      match TryMatch(mappings[from], verb, url)
      case Some(captures) => Some(Hit(from, captures))
      case None => FirstMatch(mappings, verb, url, from + 1)
  }

  /** The `while (index < length)` loop of `dispatch`: scans the table from
      `start` and stops at the first rule that matches. */
  method FindRule(mappings: seq<Mapping>, verb: string, url: string, start: nat) returns (hit: Option<Hit>)
    ensures hit == FirstMatch(mappings, verb, url, start)
  {
    var index := start;
    while index < |mappings|
      invariant start <= index
      invariant FirstMatch(mappings, verb, url, index) == FirstMatch(mappings, verb, url, start)
    {
      var match_ := TryMatch(mappings[index], verb, url);
      if match_.Some? {
        return Some(Hit(index, match_.value));
      }
      index := index + 1;
    }
    return None;
  }

  /** Rule order decides, and a method filter can send the request past an
      earlier rule with the same pattern: when the first of two rules excludes
      the request's method and the second accepts every method, the second is
      selected. */
  lemma MethodFilterSkipsRule(first: Mapping, second: Mapping, verb: string, url: string)
    requires first.methods.Some? && verb !in first.methods.value
    requires second.methods.None? && second.exec(url).Some?
    ensures FirstMatch([first, second], verb, url, 0) == Some(Hit(1, second.exec(url).value))
  {
    assert TryMatch([first, second][0], verb, url) == None;
  }
}
