/**
 * Search options, their compact flag string, and the parameter list a
 * search request carries.
 */
module Options {
  import opened Wrappers
  import opened Ints
  import Decimal

  datatype SearchOptions = SearchOptions(
    maxPageSize: U8,
    maxPageCount: U32,
    caseSensitive: bool,
    collapseResult: bool,
    excludePunctuationMarks: bool,
    excludeSentenceBoundaryTags: bool,
    dontInterpretQueryOperators: bool,
    dontTokenizeQueryTerms: bool,
    dontUnicodeNormalizeQuery: bool)

  /** `SearchOptions::default`. */
  function Default(): (o: SearchOptions)
    ensures o.maxPageSize == 100 && o.maxPageCount == 10
    ensures EnabledCount(o) == 0 && FlagsOf(o) == ""
    ensures LimitText(o) == "100"
  {
    SearchOptions(100, 10, false, false, false, false, false, false, false)
  }

  /** The seven switches, in declaration order. */
  function Switches(o: SearchOptions): (bits: seq<bool>)
    ensures |bits| == 7
  {
    [o.caseSensitive, o.collapseResult, o.excludePunctuationMarks,
     o.excludeSentenceBoundaryTags, o.dontInterpretQueryOperators,
     o.dontTokenizeQueryTerms, o.dontUnicodeNormalizeQuery]
  }

  function Indicator(on: bool): nat {
    if on then 1 else 0
  }

  /** How many of the seven switches are on. */
  function EnabledCount(o: SearchOptions): (n: nat)
    ensures n <= 7
  {
    Indicator(o.caseSensitive) + Indicator(o.collapseResult) +
    Indicator(o.excludePunctuationMarks) + Indicator(o.excludeSentenceBoundaryTags) +
    Indicator(o.dontInterpretQueryOperators) + Indicator(o.dontTokenizeQueryTerms) +
    Indicator(o.dontUnicodeNormalizeQuery)
  }

  /** What one switch contributes to the flag string. */
  function Flag(on: bool, code: string): string {
    if on then code else ""
  }

  /**
   * The flag string of a set of options: the two-letter code of every
   * enabled switch, in the fixed order cs, cr, ep, es, ri, rt, rn.
   */
  function FlagsOf(o: SearchOptions): string {
    Flag(o.caseSensitive, "cs") + Flag(o.collapseResult, "cr") +
    Flag(o.excludePunctuationMarks, "ep") + Flag(o.excludeSentenceBoundaryTags, "es") +
    Flag(o.dontInterpretQueryOperators, "ri") + Flag(o.dontTokenizeQueryTerms, "rt") +
    Flag(o.dontUnicodeNormalizeQuery, "rn")
  }

  /** One `push_str` guarded by a switch extends the string by that switch's flag. */
  lemma Pushed(before: string, after: string, on: bool, code: string)
    requires after == if on then before + code else before
    ensures after == before + Flag(on, code)
  {
  }

  /** `SearchOptions::to_flags`, appending one code per enabled switch. */
  method ToFlags(o: SearchOptions) returns (flags: string)
    ensures flags == FlagsOf(o)
  {
    flags := "";
    ghost var before := flags;
    if o.caseSensitive {
      flags := flags + "cs";
    }
    Pushed(before, flags, o.caseSensitive, "cs");
    before := flags;
    if o.collapseResult {
      flags := flags + "cr";
    }
    Pushed(before, flags, o.collapseResult, "cr");
    before := flags;
    if o.excludePunctuationMarks {
      flags := flags + "ep";
    }
    Pushed(before, flags, o.excludePunctuationMarks, "ep");
    before := flags;
    if o.excludeSentenceBoundaryTags {
      flags := flags + "es";
    }
    Pushed(before, flags, o.excludeSentenceBoundaryTags, "es");
    before := flags;
    if o.dontInterpretQueryOperators {
      flags := flags + "ri";
    }
    Pushed(before, flags, o.dontInterpretQueryOperators, "ri");
    before := flags;
    if o.dontTokenizeQueryTerms {
      flags := flags + "rt";
    }
    Pushed(before, flags, o.dontTokenizeQueryTerms, "rt");
    before := flags;
    if o.dontUnicodeNormalizeQuery {
      flags := flags + "rn";
    }
    Pushed(before, flags, o.dontUnicodeNormalizeQuery, "rn");
    assert "" + Flag(o.caseSensitive, "cs") == Flag(o.caseSensitive, "cs");
  }

  /**
   * The flag string has two letters per enabled switch, so it is empty
   * exactly when every switch is off.
   */
  lemma FlagsLength(o: SearchOptions)
    ensures |FlagsOf(o)| == 2 * EnabledCount(o)
    ensures FlagsOf(o) == "" <==> Switches(o) == [false, false, false, false, false, false, false]
  {
  }

  /** `max_page_size.to_string()`: the `limit` parameter's value. */
  function LimitText(o: SearchOptions): string {
    Decimal.ToDecimal(o.maxPageSize as nat)
  }

  /** Distinct page sizes send distinct `limit` values, which read back as the page size. */
  lemma LimitTextFaithful(o1: SearchOptions, o2: SearchOptions)
    ensures Decimal.Parse(LimitText(o1)) == Some(o1.maxPageSize as nat)
    ensures LimitText(o1) == LimitText(o2) <==> o1.maxPageSize == o2.maxPageSize
  {
    Decimal.ParseToDecimal(o1.maxPageSize as nat);
    Decimal.ToDecimalInjective(o1.maxPageSize as nat, o2.maxPageSize as nat);
  }

  /**
   * The parameter list of a search request: `query`, `limit`, then
   * `flags` when some switch is on, then `start` when a continuation
   * token is stored.
   */
  function SearchParams(query: string, o: SearchOptions, start: Option<string>): seq<(string, string)> {
    [("query", query), ("limit", LimitText(o))]
    + (if FlagsOf(o) == "" then [] else [("flags", FlagsOf(o))])
    + (match start case None => [] case Some(token) => [("start", token)])
  }

  /** The keys of a parameter list, in order. */
  function Keys(params: seq<(string, string)>): (keys: seq<string>)
    ensures |keys| == |params|
    ensures forall i :: 0 <= i < |params| ==> keys[i] == params[i].0
  {
    if params == [] then [] else [params[0].0] + Keys(params[1..])
  }

  /** The value the first parameter with this key carries. */
  function Lookup(params: seq<(string, string)>, key: string): Option<string> {
    if params == [] then None
    else if params[0].0 == key then Some(params[0].1)
    else Lookup(params[1..], key)
  }

  /**
   * The parameter list, as `Pages::next` assembles it by pushing onto a
   * vector.
   */
  method BuildSearchParams(query: string, o: SearchOptions, start: Option<string>)
    returns (params: seq<(string, string)>)
    ensures params == SearchParams(query, o, start)
  {
    var maxPageSize := Decimal.ToDecimal(o.maxPageSize as nat);
    params := [("query", query), ("limit", maxPageSize)];
    var flags := ToFlags(o);
    if flags != "" {
      params := params + [("flags", flags)];
    }
    if start.Some? {
      params := params + [("start", start.value)];
    }
  }

  /**
   * The keys come in the fixed order query, limit, flags, start; `flags`
   * is present iff some switch is on and `start` iff a token is stored,
   * and every key carries the value it was built from.
   */
  lemma {:induction false} SearchParamsShape(query: string, o: SearchOptions, start: Option<string>)
    ensures Keys(SearchParams(query, o, start)) ==
      ["query", "limit"]
      + (if FlagsOf(o) == "" then [] else ["flags"])
      + (if start.Some? then ["start"] else [])
    ensures Lookup(SearchParams(query, o, start), "query") == Some(query)
    ensures Lookup(SearchParams(query, o, start), "limit") == Some(LimitText(o))
    ensures Lookup(SearchParams(query, o, start), "flags") ==
      if FlagsOf(o) == "" then None else Some(FlagsOf(o))
    ensures Lookup(SearchParams(query, o, start), "start") == start
  {
    var flagPart: seq<(string, string)> := if FlagsOf(o) == "" then [] else [("flags", FlagsOf(o))];
    var startPart: seq<(string, string)> := match start case None => [] case Some(token) => [("start", token)];
    var ps := SearchParams(query, o, start);
    var tail := flagPart + startPart;
    assert ps == [("query", query)] + ([("limit", LimitText(o))] + tail);
    LookupCons(("query", query), [("limit", LimitText(o))] + tail, "flags");
    LookupCons(("query", query), [("limit", LimitText(o))] + tail, "start");
    LookupCons(("limit", LimitText(o)), tail, "flags");
    LookupCons(("limit", LimitText(o)), tail, "start");
    KeysCons(("query", query), [("limit", LimitText(o))] + tail);
    KeysCons(("limit", LimitText(o)), tail);
    assert Lookup(startPart, "start") == start && Lookup(startPart, "flags") == None by {
      if start.Some? {
        LookupCons(("start", start.value), [], "start");
        LookupCons(("start", start.value), [], "flags");
        KeysCons(("start", start.value), []);
      }
    }
    if FlagsOf(o) != "" {
      LookupCons(("flags", FlagsOf(o)), startPart, "flags");
      LookupCons(("flags", FlagsOf(o)), startPart, "start");
      KeysCons(("flags", FlagsOf(o)), startPart);
      assert tail == [("flags", FlagsOf(o))] + startPart;
    } else {
      assert tail == startPart;
    }
    if start.Some? {
      KeysCons(("start", start.value), []);
    }
  }

  lemma LookupCons(p: (string, string), rest: seq<(string, string)>, key: string)
    ensures Lookup([p] + rest, key) == if p.0 == key then Some(p.1) else Lookup(rest, key)
  {
    assert ([p] + rest)[1..] == rest;
  }

  lemma KeysCons(p: (string, string), rest: seq<(string, string)>)
    ensures Keys([p] + rest) == [p.0] + Keys(rest)
  {
    assert ([p] + rest)[1..] == rest;
  }
}
