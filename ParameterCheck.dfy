/** The parameter check of the executor's initialisation: which declared external
    variables have no configured parameter, and the error messages that report it. */
module ParameterCheck {
  import opened Wrappers
  import opened XQueryTypes

  // ---------------------------------------------------------------------------
  // Missing parameters
  // ---------------------------------------------------------------------------

  /** The declared names that are not keys of the parameter map, in the order
      they were declared (duplicates kept). */
  function MissingParameters(declared: seq<string>, provided: set<string>): seq<string>
    decreases |declared|
  {
    if |declared| == 0 then []
    else
      var last := declared[|declared| - 1];
      var init := MissingParameters(declared[..|declared| - 1], provided);
      if last in provided then init else init + [last]
  }

  /** A name is reported missing exactly when it is declared and not provided. */
  lemma {:induction false} MissingParametersMembership(declared: seq<string>, provided: set<string>, x: string)
    ensures x in MissingParameters(declared, provided) <==> x in declared && x !in provided
  {
    if |declared| > 0 {
      var init := declared[..|declared| - 1];
      MissingParametersMembership(init, provided, x);
      assert declared == init + [declared[|declared| - 1]];
    }
  }

  /** Missing parameters are computed element by element, so the order of the
      declaration is kept: the result for a concatenation is the concatenation
      of the results, and a single name is reported iff it is not provided. */
  lemma {:induction false} MissingParametersConcat(a: seq<string>, b: seq<string>, provided: set<string>)
    ensures MissingParameters(a + b, provided) == MissingParameters(a, provided) + MissingParameters(b, provided)
    decreases |b|
  {
    if |b| == 0 {
      assert a + b == a;
    } else {
      var b' := b[..|b| - 1];
      assert (a + b)[..|a + b| - 1] == a + b';
      MissingParametersConcat(a, b', provided);
    }
  }

  lemma MissingParametersSingle(x: string, provided: set<string>)
    ensures MissingParameters([x], provided) == if x in provided then [] else [x]
  {
    assert [x][..0] == [];
  }

  /** Nothing is missing exactly when every declared name is provided. */
  lemma {:induction false} NoneMissingIff(declared: seq<string>, provided: set<string>)
    ensures |MissingParameters(declared, provided)| == 0 <==>
            forall i :: 0 <= i < |declared| ==> declared[i] in provided
  {
    if |MissingParameters(declared, provided)| == 0 {
      forall i | 0 <= i < |declared| ensures declared[i] in provided {
        MissingParametersMembership(declared, provided, declared[i]);
      }
    } else {
      var x := MissingParameters(declared, provided)[0];
      MissingParametersMembership(declared, provided, x);
    }
  }

  /** The loop of the initialisation that collects the missing parameters. */
  method CollectMissingParameters(declared: seq<string>, parameterMap: map<string, XQueryParameter>)
    returns (missing: seq<string>)
    ensures missing == MissingParameters(declared, parameterMap.Keys)
  {
    missing := [];
    var i := 0;
    while i < |declared|
      invariant 0 <= i <= |declared|
      invariant missing == MissingParameters(declared[..i], parameterMap.Keys)
    {
      assert declared[..i + 1][..i] == declared[..i];
      if declared[i] !in parameterMap {
        missing := missing + [declared[i]];
      }
      i := i + 1;
    }
    assert declared[..i] == declared;
  }

  // ---------------------------------------------------------------------------
  // The "Missing parameter(s)" message
  // ---------------------------------------------------------------------------

  /** `$a, $b, ...`: each name prefixed by `$`, separated by a comma and a space. */
  function DollarList(names: seq<string>): string
    decreases |names|
  {
    if |names| == 0 then ""
    else if |names| == 1 then "$" + names[0]
    else DollarList(names[..|names| - 1]) + ", $" + names[|names| - 1]
  }

  const MissingParametersPrefix: string := "Missing parameter(s) "

  function MissingParametersMessage(missing: seq<string>): string {
    MissingParametersPrefix + "[" + DollarList(missing) + "]"
  }

  /** The StringBuilder loop that brackets the missing names. */
  method BuildMissingList(missing: seq<string>) returns (s: string)
    requires |missing| > 0
    ensures s == "[" + DollarList(missing) + "]"
  {
    var builder := "[" + "$" + missing[0];
    assert missing[..1] == [missing[0]];
    var i := 1;
    while i < |missing|
      invariant 1 <= i <= |missing|
      invariant builder == "[" + DollarList(missing[..i])
    {
      assert missing[..i + 1][..i] == missing[..i];
      builder := builder + ", " + "$" + missing[i];
      i := i + 1;
    }
    assert missing[..i] == missing;
    s := builder + "]";
  }

  /** The index of the last occurrence of `c` in `s`, or -1. */
  function LastIndexOf(s: string, c: char): (k: int)
    ensures -1 <= k < |s|
    ensures k >= 0 ==> s[k] == c && forall j :: k < j < |s| ==> s[j] != c
    ensures k == -1 <==> c !in s
    decreases |s|
  {
    if |s| == 0 then -1
    else if s[|s| - 1] == c then |s| - 1
    else LastIndexOf(s[..|s| - 1], c)
  }

  lemma {:induction false} LastIndexOfAppend(a: string, b: string, c: char)
    requires c !in b
    ensures LastIndexOf(a + b, c) == LastIndexOf(a, c)
    decreases |b|
  {
    if |b| > 0 {
      assert (a + b)[..|a + b| - 1] == a + b[..|b| - 1];
      LastIndexOfAppend(a, b[..|b| - 1], c);
    } else {
      assert a + b == a;
    }
  }

  /** Reads a `$a, $b, ...` list back into its names, splitting at commas from
      the right. */
  function ParseDollarList(s: string): seq<string>
    decreases |s|
  {
    var k := LastIndexOf(s, ',');
    if k < 0 then (if |s| == 0 then [] else [s[1..]])
    else ParseDollarList(s[..k]) + [if k + 3 <= |s| then s[k + 3..] else ""]
  }

  /** Splitting at the last comma undoes one `, $name` step of the list. */
  lemma ParseDollarListStep(d: string, last: string)
    requires ',' !in last
    ensures ParseDollarList(d + ", $" + last) == ParseDollarList(d) + [last]
  {
    var s := d + ", $" + last;
    ConcatParts(d, ", $", last);
    assert ", $"[..1] == "," && ", $"[1..] == " $";
    assert ',' !in " $" + last;
    LastIndexOfAppend(d + ",", " $" + last, ',');
    assert LastIndexOf(d + ",", ',') == |d|;
  }

  /** Where the three parts of `a + b + c` sit, with `b`'s first element split
      off. */
  lemma ConcatParts<T>(a: seq<T>, b: seq<T>, c: seq<T>)
    requires |b| > 0
    ensures a + b + c == (a + b[..1]) + (b[1..] + c)
    ensures (a + b + c)[..|a|] == a && (a + b + c)[|a| + |b|..] == c
  {
  }

  /** A non-empty sequence is its front followed by its last element, and the
      front keeps the elements' positions. */
  lemma SplitLast<T>(s: seq<T>)
    requires |s| > 0
    ensures s == s[..|s| - 1] + [s[|s| - 1]]
    ensures forall i :: 0 <= i < |s| - 1 ==> s[..|s| - 1][i] == s[i]
  {
  }

  /** A list of names none of which contains a comma (an XQuery variable's local
      name never does) is recovered from its `$`-list. */
  lemma {:induction false} DollarListRoundTrip(names: seq<string>)
    requires forall i :: 0 <= i < |names| ==> ',' !in names[i]
    ensures ParseDollarList(DollarList(names)) == names
    decreases |names|
  {
    if |names| == 1 {
      assert ',' !in DollarList(names);
    } else if |names| > 1 {
      var init, last := names[..|names| - 1], names[|names| - 1];
      SplitLast(names);
      DollarListRoundTrip(init);
      var d := DollarList(init);
      ParseDollarListStep(d, last);
      calc {
        ParseDollarList(DollarList(names));
        ParseDollarList(d + ", $" + last);
        ParseDollarList(d) + [last];
        init + [last];
        names;
      }
    }
  }

  /** The names reported by a "Missing parameter(s)" message, or None when the
      text is not such a message. */
  function DecodeMissingParametersMessage(msg: string): Option<seq<string>> {
    var n := |MissingParametersPrefix| + 1;
    if |msg| >= n + 1 && msg[..n] == MissingParametersPrefix + "[" && msg[|msg| - 1] == ']'
    then Some(ParseDollarList(msg[n..|msg| - 1]))
    else None
  }

  /** The message reports exactly the missing names, in order. */
  lemma MissingParametersMessageRoundTrip(missing: seq<string>)
    requires forall i :: 0 <= i < |missing| ==> ',' !in missing[i]
    ensures DecodeMissingParametersMessage(MissingParametersMessage(missing)) == Some(missing)
  {
    var msg := MissingParametersMessage(missing);
    var n := |MissingParametersPrefix| + 1;
    assert msg[..n] == MissingParametersPrefix + "[";
    assert msg[n..|msg| - 1] == DollarList(missing);
    DollarListRoundTrip(missing);
  }

  // ---------------------------------------------------------------------------
  // The "Expecting n parameters" message
  // ---------------------------------------------------------------------------

  function DigitChar(d: nat): char
    requires d < 10
  {
    "0123456789"[d]
  }

  function DigitValue(c: char): nat {
    if '0' <= c <= '9' then (c as int - '0' as int) as nat else 0
  }

  /** Java's decimal rendering of a non-negative int. */
  function NatToString(n: nat): (s: string)
    ensures |s| > 0
    decreases n
  {
    if n < 10 then [DigitChar(n)] else NatToString(n / 10) + [DigitChar(n % 10)]
  }

  function ParseNat(s: string): nat
    decreases |s|
  {
    if |s| == 0 then 0 else 10 * ParseNat(s[..|s| - 1]) + DigitValue(s[|s| - 1])
  }

  /** The rendered count reads back as the count, and has no leading zero. */
  lemma {:induction false} NatToStringRoundTrip(n: nat)
    ensures ParseNat(NatToString(n)) == n
    ensures NatToString(n)[0] == '0' ==> n == 0
    decreases n
  {
    if n >= 10 {
      NatToStringRoundTrip(n / 10);
      var s := NatToString(n);
      assert s[..|s| - 1] == NatToString(n / 10);
    }
  }

  function ExpectingParametersMessage(count: nat): string {
    "Expecting " + NatToString(count) + " parameters in the xquery, " + "but none provided to the router"
  }

  // ---------------------------------------------------------------------------
  // The check itself
  // ---------------------------------------------------------------------------

  /** The executor keeps the declared names only when the query declares some. */
  function DeclaredParameters(names: seq<string>, before: Option<seq<string>>): Option<seq<string>> {
    if |names| > 0 then Some(names) else before
  }

  /** The outcome of checking the recorded external-variable names against the
      parameter map (null map: None). */
  function CheckParameters(parameters: Option<seq<string>>, parameterMap: Option<map<string, XQueryParameter>>): Outcome<Error> {
    match parameters
    case None => Pass
    case Some(ps) =>
      match parameterMap
      case None => Fail(Messaging(ExpectingParametersMessage(|ps|)))
      case Some(m) =>
        var missing := MissingParameters(ps, m.Keys);
        if |missing| > 0 then Fail(Messaging(MissingParametersMessage(missing))) else Pass
  }

  /** The check as the initialisation performs it: the map's null test, the
      loop collecting missing names, and the message built from them. */
  method CheckDeclaredParameters(parameters: Option<seq<string>>, parameterMap: Option<map<string, XQueryParameter>>)
    returns (r: Outcome<Error>)
    ensures r == CheckParameters(parameters, parameterMap)
  {
    if parameters.Some? {
      if parameterMap.None? {
        return Fail(Messaging(ExpectingParametersMessage(|parameters.value|)));
      }
      var missing := CollectMissingParameters(parameters.value, parameterMap.value);
      if |missing| > 0 {
        var list := BuildMissingList(missing);
        assert MissingParametersPrefix + list == MissingParametersMessage(missing);
        return Fail(Messaging(MissingParametersPrefix + list));
      }
    }
    r := Pass;
  }

  /** On a fresh executor the check fails exactly when the query declares
      external variables and either no parameter map is set or some declared
      name is not a key of it. */
  lemma CheckParametersFailsIff(names: seq<string>, parameterMap: Option<map<string, XQueryParameter>>)
    ensures CheckParameters(DeclaredParameters(names, None), parameterMap).Fail? <==>
            |names| > 0 &&
            (parameterMap.None? || exists i :: 0 <= i < |names| && names[i] !in parameterMap.value)
  {
    if |names| > 0 && parameterMap.Some? {
      NoneMissingIff(names, parameterMap.value.Keys);
    }
  }

  /** When some declared names are missing from a non-null map, the failure
      message lists exactly those names. */
  lemma CheckParametersReportsMissing(ps: seq<string>, m: map<string, XQueryParameter>)
    requires forall i :: 0 <= i < |ps| ==> ',' !in ps[i]
    requires CheckParameters(Some(ps), Some(m)).Fail?
    ensures CheckParameters(Some(ps), Some(m)).error.Messaging?
    ensures DecodeMissingParametersMessage(CheckParameters(Some(ps), Some(m)).error.message) ==
            Some(MissingParameters(ps, m.Keys))
    ensures forall x :: x in MissingParameters(ps, m.Keys) <==> x in ps && x !in m
  {
    var missing := MissingParameters(ps, m.Keys);
    forall i | 0 <= i < |missing| ensures ',' !in missing[i] {
      MissingParametersMembership(ps, m.Keys, missing[i]);
    }
    MissingParametersMessageRoundTrip(missing);
    forall x ensures x in missing <==> x in ps && x !in m {
      MissingParametersMembership(ps, m.Keys, x);
    }
  }
}
