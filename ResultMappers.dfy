/** The four built-in result mappers. Each walks the result sequence once and
    coerces every item to its target type through a fixed cascade of the
    abstract mapper's helpers; the node mapper keeps only node-typed items. */
module ResultMappers {
  import opened Wrappers
  import opened XQueryTypes

  /** Every mapper wraps any failure in this one message. */
  const MappingFailure: string := "Caught Exception while mapping the result sequence to string"

  // ---------------------------------------------------------------------------
  // JDK behaviour the cascades rely on
  // ---------------------------------------------------------------------------

  /** XQJ's `getNode`, taken to throw (None) on any item that is not a node. */
  function GetNode(item: Item): Option<NodeRef> {
    match item
    case NodeItem(n) => Some(n)
    case _ => None
  }

  /** `Boolean.toString`. */
  function BooleanToString(b: bool): string {
    if b then "true" else "false"
  }

  /** `Boolean.valueOf(String)`: true exactly for "true" in any letter case;
      null gives false. */
  function BooleanValueOf(s: Option<string>): bool {
    s.Some? && |s.value| == 4 &&
    s.value[0] in "tT" && s.value[1] in "rR" && s.value[2] in "uU" && s.value[3] in "eE"
  }

  /** `Character.isWhitespace` on a code point (the Unicode space, line and
      paragraph separators other than the no-break spaces, and the ASCII
      controls 9 to 13 and 28 to 31). U+180E is included, as it is a space
      separator in the Unicode versions of Java 6 to 8. */
  predicate IsJavaWhitespace(c: char) {
    var n := c as int;
    (9 <= n <= 13) || (28 <= n <= 32) || n == 0x1680 || n == 0x180E ||
    (0x2000 <= n <= 0x2006) || (0x2008 <= n <= 0x200A) ||
    n == 0x2028 || n == 0x2029 || n == 0x205F || n == 0x3000
  }

  /** `StringUtils.hasText`: not null and some character is not whitespace. */
  predicate HasText(s: Option<string>) {
    s.Some? && exists i :: 0 <= i < |s.value| && !IsJavaWhitespace(s.value[i])
  }

  /** `String.indexOf(char)`: the first index of `c`, or -1. */
  function IndexOf(s: string, c: char): (k: int)
    ensures -1 <= k < |s|
    ensures k >= 0 ==> s[k] == c && c !in s[..k]
    ensures k == -1 <==> c !in s
    decreases |s|
  {
    if |s| == 0 then -1
    else if s[0] == c then 0
    else
      var k := IndexOf(s[1..], c);
      assert k >= 0 ==> s[1..][..k] == s[1..k + 1];
      if k < 0 then -1 else k + 1
  }

  /** The number mapper's test `indexOf(".") > 0`: a dot occurs and the text does
      not start with one. */
  lemma DoubleBranchIff(s: string)
    ensures IndexOf(s, '.') > 0 <==> '.' in s && s[0] != '.'
  {
  }

  // ---------------------------------------------------------------------------
  // One item
  // ---------------------------------------------------------------------------

  /** The string mapper's cascade: string conversion, else the number's text,
      else the boolean's text, else the node's serialisation for a node item,
      else null. */
  function StringEntry(h: ResultHelpers, formatOutput: bool, item: Item): Result<Option<string>, Error> {
    match h.convertToString(item)
    case Some(v) => Success(Some(v))
    case None =>
      match h.convertToNumber(item)
      case Some(n) => Success(Some(h.numberToString(n)))
      case None =>
        match h.convertToBoolean(item)
        case Some(b) => Success(Some(BooleanToString(b)))
        case None =>
          if !h.isNodeType(item) then Success(None)
          else match GetNode(item)
            case None => Failure(Messaging(MappingFailure))
            case Some(n) => Success(h.transformNodeToString(n, formatOutput))
  }

  /** The boolean mapper's cascade: boolean conversion, else `Boolean.valueOf` of
      a node's text, else null. */
  function BooleanEntry(h: ResultHelpers, formatOutput: bool, item: Item): Result<Option<bool>, Error> {
    match h.convertToBoolean(item)
    case Some(b) => Success(Some(b))
    case None =>
      if !h.isNodeType(item) then Success(None)
      else match GetNode(item)
        case None => Failure(Messaging(MappingFailure))
        case Some(n) => Success(Some(BooleanValueOf(h.transformNodeToString(n, formatOutput))))
  }

  /** The number mapper's cascade: number conversion, else a node's non-blank
      text parsed as a double when it has a dot after its first character and as
      a long otherwise, else null. A text the parser rejects fails the mapping. */
  function NumberEntry(h: ResultHelpers, formatOutput: bool, item: Item): Result<Option<Number>, Error> {
    match h.convertToNumber(item)
    case Some(v) => Success(Some(v))
    case None =>
      if !h.isNodeType(item) then Success(None)
      else match GetNode(item)
        case None => Failure(Messaging(MappingFailure))
        case Some(n) =>
          var text := h.transformNodeToString(n, formatOutput);
          if !HasText(text) then Success(None)
          else if IndexOf(text.value, '.') > 0 then
            (if h.parsesAsDouble(text.value) then Success(Some(DoubleOf(text.value)))
             else Failure(Messaging(MappingFailure)))
          else if h.parsesAsLong(text.value) then Success(Some(LongOf(text.value)))
          else Failure(Messaging(MappingFailure))
  }

  function StringEntries(h: ResultHelpers, formatOutput: bool): Item -> Result<Option<string>, Error> {
    item => StringEntry(h, formatOutput, item)
  }

  function BooleanEntries(h: ResultHelpers, formatOutput: bool): Item -> Result<Option<bool>, Error> {
    item => BooleanEntry(h, formatOutput, item)
  }

  function NumberEntries(h: ResultHelpers, formatOutput: bool): Item -> Result<Option<Number>, Error> {
    item => NumberEntry(h, formatOutput, item)
  }

  // ---------------------------------------------------------------------------
  // Properties of the cascades
  // ---------------------------------------------------------------------------

  /** A string entry is null exactly when every step of the cascade gives null,
      and the mapping fails on an item exactly when only the node step is left
      and the item claims a node type without being a node. */
  lemma StringEntryNullIff(h: ResultHelpers, formatOutput: bool, item: Item)
    ensures StringEntry(h, formatOutput, item) == Success(None) <==>
            h.convertToString(item).None? && h.convertToNumber(item).None? && h.convertToBoolean(item).None? &&
            (!h.isNodeType(item) || (item.NodeItem? && h.transformNodeToString(item.node, formatOutput).None?))
    ensures StringEntry(h, formatOutput, item).Failure? <==>
            h.convertToString(item).None? && h.convertToNumber(item).None? && h.convertToBoolean(item).None? &&
            h.isNodeType(item) && !item.NodeItem?
  {
  }

  /** A boolean entry is null exactly when there is no boolean conversion and
      the item is not node-typed; a node item always gives `Boolean.valueOf` of
      its text, never null. */
  lemma BooleanEntryNullIff(h: ResultHelpers, formatOutput: bool, item: Item)
    ensures BooleanEntry(h, formatOutput, item) == Success(None) <==>
            h.convertToBoolean(item).None? && !h.isNodeType(item)
    ensures h.convertToBoolean(item).None? && h.isNodeType(item) && item.NodeItem? ==>
            BooleanEntry(h, formatOutput, item) ==
            Success(Some(BooleanValueOf(h.transformNodeToString(item.node, formatOutput))))
  {
  }

  /** A number entry parsed from text is a double only for a text with a dot
      after its first character; in particular a text starting with a dot is
      handed to `Long.valueOf`. */
  lemma NumberEntryParseBranch(h: ResultHelpers, formatOutput: bool, item: Item)
    requires h.convertToNumber(item).None?
    ensures NumberEntry(h, formatOutput, item).Success? && NumberEntry(h, formatOutput, item).value.Some? ==>
            item.NodeItem? && HasText(h.transformNodeToString(item.node, formatOutput)) &&
            var text := h.transformNodeToString(item.node, formatOutput).value;
            NumberEntry(h, formatOutput, item).value.value ==
              (if '.' in text && text[0] != '.' then DoubleOf(text) else LongOf(text))
  {
    if NumberEntry(h, formatOutput, item).Success? && NumberEntry(h, formatOutput, item).value.Some? {
      DoubleBranchIff(h.transformNodeToString(item.node, formatOutput).value);
    }
  }

  /** Without a number conversion, a number entry fails exactly when the item
      claims a node type without being a node, or its node text is not blank
      and the parser the dot test picks rejects it; every failure is the one
      wrapped mapping error. */
  lemma NumberEntryFailsIff(h: ResultHelpers, formatOutput: bool, item: Item)
    requires h.convertToNumber(item).None?
    ensures NumberEntry(h, formatOutput, item).Failure? <==>
            h.isNodeType(item) &&
            (!item.NodeItem? ||
             (HasText(h.transformNodeToString(item.node, formatOutput)) &&
              var text := h.transformNodeToString(item.node, formatOutput).value;
              if '.' in text && text[0] != '.' then !h.parsesAsDouble(text) else !h.parsesAsLong(text)))
    ensures NumberEntry(h, formatOutput, item).Failure? ==>
            NumberEntry(h, formatOutput, item) == Failure(Messaging(MappingFailure))
  {
    if item.NodeItem? && HasText(h.transformNodeToString(item.node, formatOutput)) {
      DoubleBranchIff(h.transformNodeToString(item.node, formatOutput).value);
    }
  }

  /** A blank or null node text, or an item that is neither a number nor a node,
      gives a null number entry. */
  lemma NumberEntryNull(h: ResultHelpers, formatOutput: bool, item: Item)
    requires h.convertToNumber(item).None?
    requires !h.isNodeType(item) || (item.NodeItem? && !HasText(h.transformNodeToString(item.node, formatOutput)))
    ensures NumberEntry(h, formatOutput, item) == Success(None)
  {
  }

  // ---------------------------------------------------------------------------
  // A whole result sequence
  // ---------------------------------------------------------------------------

  /** The node mapper's output: the nodes of the node-typed items, in order. */
  function MapNodes(h: ResultHelpers, items: seq<Item>): Result<seq<NodeRef>, Error>
    decreases |items|
  {
    if |items| == 0 then Success([])
    else
      match MapNodes(h, items[..|items| - 1])
      case Failure(e) => Failure(e)
      case Success(prefix) =>
        var last := items[|items| - 1];
        if !h.isNodeType(last) then Success(prefix)
        else match GetNode(last)
          case None => Failure(Messaging(MappingFailure))
          case Some(n) => Success(prefix + [n])
  }

  lemma {:induction false} MapNodesPrefixFailure(h: ResultHelpers, items: seq<Item>, n: nat)
    requires n <= |items|
    requires MapNodes(h, items[..n]).Failure?
    ensures MapNodes(h, items) == MapNodes(h, items[..n])
    decreases |items| - n
  {
    if n < |items| {
      var init := items[..|items| - 1];
      assert init[..n] == items[..n];
      MapNodesPrefixFailure(h, init, n);
    } else {
      assert items[..n] == items;
    }
  }

  /** The node mapper succeeds exactly when every node-typed item is a node. Its
      output is then the subsequence of node-typed items: `idx` lists their
      positions, strictly increasing, and the output is never longer than the
      input. */
  lemma {:induction false} MapNodesSubsequence(h: ResultHelpers, items: seq<Item>) returns (idx: seq<nat>)
    ensures MapNodes(h, items).Success? <==>
            forall k :: 0 <= k < |items| && h.isNodeType(items[k]) ==> items[k].NodeItem?
    ensures MapNodes(h, items).Success? ==>
            var ns := MapNodes(h, items).value;
            && |idx| == |ns| <= |items|
            && (forall j :: 0 <= j < |idx| ==> idx[j] < |items| && h.isNodeType(items[idx[j]]) && items[idx[j]] == NodeItem(ns[j]))
            && (forall j, j' :: 0 <= j < j' < |idx| ==> idx[j] < idx[j'])
            && (forall k :: 0 <= k < |items| && h.isNodeType(items[k]) ==> k in idx)
    decreases |items|
  {
    if |items| == 0 {
      idx := [];
    } else {
      var init, last := items[..|items| - 1], items[|items| - 1];
      assert forall k :: 0 <= k < |init| ==> init[k] == items[k];
      var prev := MapNodesSubsequence(h, init);
      if MapNodes(h, init).Success? && h.isNodeType(last) && last.NodeItem? {
        idx := prev + [|items| - 1];
      } else {
        idx := prev;
      }
    }
  }

  // ---------------------------------------------------------------------------
  // The mapResults loops
  // ---------------------------------------------------------------------------

  /** StringResultMapper.mapResults. */
  method MapStringResults(h: ResultHelpers, formatOutput: bool, items: seq<Item>)
    returns (r: Result<seq<Option<string>>, Error>)
    ensures r == MapEach(items, StringEntries(h, formatOutput))
  {
    var results: seq<Option<string>> := [];
    var i := 0;
    while i < |items|
      invariant 0 <= i <= |items|
      invariant MapEach(items[..i], StringEntries(h, formatOutput)) == Success(results)
    {
      assert items[..i + 1][..i] == items[..i];
      var item := items[i];
      var value := h.convertToString(item);
      if value.None? {
        var number := h.convertToNumber(item);
        if number.None? {
          var boolValue := h.convertToBoolean(item);
          if boolValue.None? {
            if h.isNodeType(item) {
              var n := GetNode(item);
              if n.None? {
                MapEachPrefixFailure(items, i + 1, StringEntries(h, formatOutput));
                return Failure(Messaging(MappingFailure));
              }
              value := h.transformNodeToString(n.value, formatOutput);
            }
          } else {
            value := Some(BooleanToString(boolValue.value));
          }
        } else {
          value := Some(h.numberToString(number.value));
        }
      }
      results := results + [value];
      i := i + 1;
    }
    assert items[..i] == items;
    r := Success(results);
  }

  /** BooleanResultMapper.mapResults. */
  method MapBooleanResults(h: ResultHelpers, formatOutput: bool, items: seq<Item>)
    returns (r: Result<seq<Option<bool>>, Error>)
    ensures r == MapEach(items, BooleanEntries(h, formatOutput))
  {
    var results: seq<Option<bool>> := [];
    var i := 0;
    while i < |items|
      invariant 0 <= i <= |items|
      invariant MapEach(items[..i], BooleanEntries(h, formatOutput)) == Success(results)
    {
      assert items[..i + 1][..i] == items[..i];
      var item := items[i];
      var value := h.convertToBoolean(item);
      if value.None? {
        if h.isNodeType(item) {
          var n := GetNode(item);
          if n.None? {
            MapEachPrefixFailure(items, i + 1, BooleanEntries(h, formatOutput));
            return Failure(Messaging(MappingFailure));
          }
          value := Some(BooleanValueOf(h.transformNodeToString(n.value, formatOutput)));
        }
      }
      results := results + [value];
      i := i + 1;
    }
    assert items[..i] == items;
    r := Success(results);
  }

  /** NumberResultMapper.mapResults. */
  method MapNumberResults(h: ResultHelpers, formatOutput: bool, items: seq<Item>)
    returns (r: Result<seq<Option<Number>>, Error>)
    ensures r == MapEach(items, NumberEntries(h, formatOutput))
  {
    var results: seq<Option<Number>> := [];
    var i := 0;
    while i < |items|
      invariant 0 <= i <= |items|
      invariant MapEach(items[..i], NumberEntries(h, formatOutput)) == Success(results)
    {
      assert items[..i + 1][..i] == items[..i];
      var item := items[i];
      var value := h.convertToNumber(item);
      if value.None? {
        if h.isNodeType(item) {
          var n := GetNode(item);
          if n.None? {
            MapEachPrefixFailure(items, i + 1, NumberEntries(h, formatOutput));
            return Failure(Messaging(MappingFailure));
          }
          var strValue := h.transformNodeToString(n.value, formatOutput);
          if HasText(strValue) {
            if IndexOf(strValue.value, '.') > 0 {
              if !h.parsesAsDouble(strValue.value) {
                MapEachPrefixFailure(items, i + 1, NumberEntries(h, formatOutput));
                return Failure(Messaging(MappingFailure));
              }
              value := Some(DoubleOf(strValue.value));
            } else {
              if !h.parsesAsLong(strValue.value) {
                MapEachPrefixFailure(items, i + 1, NumberEntries(h, formatOutput));
                return Failure(Messaging(MappingFailure));
              }
              value := Some(LongOf(strValue.value));
            }
          }
        }
      }
      results := results + [value];
      i := i + 1;
    }
    assert items[..i] == items;
    r := Success(results);
  }

  /** NodeResultMapper.mapResults. */
  method MapNodeResults(h: ResultHelpers, items: seq<Item>) returns (r: Result<seq<NodeRef>, Error>)
    ensures r == MapNodes(h, items)
  {
    var results: seq<NodeRef> := [];
    var i := 0;
    while i < |items|
      invariant 0 <= i <= |items|
      invariant MapNodes(h, items[..i]) == Success(results)
    {
      assert items[..i + 1][..i] == items[..i];
      var item := items[i];
      if h.isNodeType(item) {
        var n := GetNode(item);
        if n.None? {
          MapNodesPrefixFailure(h, items, i + 1);
          return Failure(Messaging(MappingFailure));
        }
        results := results + [n.value];
      }
      i := i + 1;
    }
    assert items[..i] == items;
    r := Success(results);
  }
}
