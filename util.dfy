/** The helpers of src/lib/util.ts: folding a zod issue list into a
    path-to-message map, and the range-error message. */
module Util {
  import opened Common
  import opened Zod

  /** The key an issue is filed under: its path joined with '.'. */
  function Key(issue: Issue): string {
    Join(issue.path, ".")
  }

  /** The map the loop of getZodError has built after the given issues:
      each issue in turn overwrites the entry for its key. */
  function ErrorMap(issues: seq<Issue>): map<string, string> {
    if issues == [] then map[]
    else
      var last := issues[|issues| - 1];
      ErrorMap(issues[..|issues| - 1])[Key(last) := last.message]
  }

  /** getZodError: one pass over the issues, writing each message under its key. */
  method GetZodError(issues: seq<Issue>) returns (errorMessages: map<string, string>)
    ensures errorMessages == ErrorMap(issues)
    ensures issues == [] ==> errorMessages == map[]
  {
    errorMessages := map[];
    for i := 0 to |issues|
      invariant errorMessages == ErrorMap(issues[..i])
    {
      assert issues[..i + 1][..i] == issues[..i];
      errorMessages := errorMessages[Key(issues[i]) := issues[i].message];
    }
    assert issues[..|issues|] == issues;
  }

  /** The value handed to getZodError. The function reads its `errors`
      property: a ZodError has one, a bare array of issues does not. */
  datatype ZodErrorArg = ZodErrorObject(errors: seq<Issue>) | IssueArray(items: seq<Issue>)

  /** getZodError applied to either kind of value: the map, or None where
      iterating the undefined `errors` throws a TypeError. */
  function ZodErrorOutcome(arg: ZodErrorArg): (r: Option<map<string, string>>)
    ensures r.Some? <==> arg.ZodErrorObject?
    ensures r.Some? ==> forall i | 0 <= i < |arg.errors| :: Key(arg.errors[i]) in r.value
    ensures r.Some? ==> forall k | k in r.value :: exists i | 0 <= i < |arg.errors| :: Key(arg.errors[i]) == k
  {
    match arg
    case ZodErrorObject(errors) =>
      ErrorMapKeys(errors);
      Some(ErrorMap(errors))
    case IssueArray(_) => None
  }

  /** The routes pass `schema.error.issues`: whatever the issues, that call
      throws instead of producing the map the ZodError itself would give. */
  lemma IssueArrayArgumentThrows(issues: seq<Issue>)
    ensures ZodErrorOutcome(IssueArray(issues)) == None
    ensures ZodErrorOutcome(ZodErrorObject(issues)) == Some(ErrorMap(issues))
  {
  }

  /** Every issue's key is in the map, and every key of the map is some issue's key. */
  lemma {:induction false} ErrorMapKeys(issues: seq<Issue>)
    ensures forall i | 0 <= i < |issues| :: Key(issues[i]) in ErrorMap(issues)
    ensures forall k | k in ErrorMap(issues) :: exists i | 0 <= i < |issues| :: Key(issues[i]) == k
  {
    if issues != [] {
      var front := issues[..|issues| - 1];
      ErrorMapKeys(front);
      forall k | k in ErrorMap(issues)
        ensures exists i | 0 <= i < |issues| :: Key(issues[i]) == k
      {
        if k != Key(issues[|issues| - 1]) {
          assert k in ErrorMap(front);
          var i :| 0 <= i < |front| && Key(front[i]) == k;
          assert issues[i] == front[i];
        }
      }
      forall i | 0 <= i < |issues| ensures Key(issues[i]) in ErrorMap(issues) {
        if i < |front| {
          assert issues[i] == front[i];
        }
      }
    }
  }

  /** When several issues share a key, the message stored is that of the last one. */
  lemma {:induction false} ErrorMapLastWins(issues: seq<Issue>, i: nat)
    requires i < |issues|
    requires forall j | i < j < |issues| :: Key(issues[j]) != Key(issues[i])
    ensures Key(issues[i]) in ErrorMap(issues)
    ensures ErrorMap(issues)[Key(issues[i])] == issues[i].message
  {
    if i < |issues| - 1 {
      var front := issues[..|issues| - 1];
      assert Key(issues[|issues| - 1]) != Key(issues[i]);
      forall j | i < j < |front| ensures Key(front[j]) != Key(front[i]) {
        assert front[j] == issues[j];
      }
      ErrorMapLastWins(front, i);
    }
  }

  /** The map has at most as many keys as there are issues. */
  lemma {:induction false} ErrorMapSize(issues: seq<Issue>)
    ensures |ErrorMap(issues)| <= |issues|
  {
    if issues != [] {
      var front := issues[..|issues| - 1];
      var last := issues[|issues| - 1];
      ErrorMapSize(front);
      var m := ErrorMap(front);
      assert ErrorMap(issues).Keys == m.Keys + {Key(last)};
      assert |m.Keys + {Key(last)}| <= |m.Keys| + |{Key(last)}|;
    }
  }

  /** How a possibly-undefined number appears in a template literal:
      "undefined", or the decimal digits of the integer, after a minus sign
      when it is negative. */
  function Render(n: Option<int>): (r: string)
    ensures n.None? ==> r == "undefined"
    ensures n.Some? && n.value >= 0 ==>
      (forall i | 0 <= i < |r| :: IsDigit(r[i])) && |r| > 0 && DigitsValue(r) == n.value
    ensures n.Some? && n.value < 0 ==>
      |r| > 1 && r[0] == '-' && (forall i | 1 <= i < |r| :: IsDigit(r[i])) && DigitsValue(r[1..]) == -n.value
    ensures n.Some? && n.value >= 0 && r[0] == '0' ==> r == "0"
    ensures n.Some? && n.value < 0 ==> r[1] != '0'
  {
    match n
    case None => "undefined"
    case Some(x) =>
      if x < 0 then
        DigitsValueOfNatToString(-x);
        assert IntToString(x)[1..] == NatToString(-x);
        IntToString(x)
      else
        DigitsValueOfNatToString(x);
        IntToString(x)
  }

  /** getRangeError: "<field> must be greater than <min> and less than <max>". */
  function GetRangeError(field: string, min: Option<int>, max: Option<int>): (r: string)
    ensures StartsWith(r, field)
  {
    field + " must be greater than " + Render(min) + " and less than " + Render(max)
  }

  predicate NoSpace(s: string) {
    forall i | 0 <= i < |s| :: s[i] != ' '
  }

  lemma RenderHasNoSpace(n: Option<int>)
    ensures NoSpace(Render(n)) && |Render(n)| > 0
  {
  }

  lemma RenderInjective(a: Option<int>, b: Option<int>)
    requires Render(a) == Render(b)
    ensures a == b
  {
    if a.Some? && b.Some? {
      IntToStringInjective(a.value, b.value);
    }
  }

  /** Position of the first space, or the length when there is none. */
  function SpaceIndex(s: string): (k: nat)
    ensures k <= |s|
  {
    if s == [] || s[0] == ' ' then 0 else 1 + SpaceIndex(s[1..])
  }

  lemma {:induction false} SpaceIndexAfterWord(x: string, y: string)
    requires NoSpace(x) && |y| > 0 && y[0] == ' '
    ensures SpaceIndex(x + y) == |x|
  {
    if x == [] {
      assert x + y == y;
    } else {
      assert (x + y)[1..] == x[1..] + y;
      SpaceIndexAfterWord(x[1..], y);
    }
  }

  /** Two space-free words followed by texts that start with a space split the same way. */
  lemma SplitBeforeSpace(x: string, y: string, x': string, y': string)
    requires x + y == x' + y'
    requires NoSpace(x) && NoSpace(x')
    requires |y| > 0 && y[0] == ' ' && |y'| > 0 && y'[0] == ' '
    ensures x == x' && y == y'
  {
    SpaceIndexAfterWord(x, y);
    SpaceIndexAfterWord(x', y');
    assert x == (x + y)[..|x|] && x' == (x' + y')[..|x|];
    assert y == (x + y)[|x|..] && y' == (x' + y')[|x|..];
  }

  lemma DropCommonPrefix(p: string, a: string, b: string)
    requires p + a == p + b
    ensures a == b
  {
    assert a == (p + a)[|p|..];
    assert b == (p + b)[|p|..];
  }

  lemma RangeErrorShape(field: string, min: Option<int>, max: Option<int>)
    ensures GetRangeError(field, min, max)
         == (field + " must be greater than ") + (Render(min) + (" and less than " + Render(max)))
  {
    var a, b, c, d := field + " must be greater than ", Render(min), " and less than ", Render(max);
    assert (a + b) + c == a + (b + c);
    assert ((a + b) + c) + d == (a + (b + c)) + d == a + ((b + c) + d);
    assert (b + c) + d == b + (c + d);
  }

  /** The message determines both bounds: a different min or max gives a different message. */
  lemma RangeErrorDeterminesBounds(field: string, min: Option<int>, max: Option<int>, min': Option<int>, max': Option<int>)
    requires GetRangeError(field, min, max) == GetRangeError(field, min', max')
    ensures min == min' && max == max'
  {
    var lead := field + " must be greater than ";
    var sep := " and less than ";
    RangeErrorShape(field, min, max);
    RangeErrorShape(field, min', max');
    DropCommonPrefix(lead, Render(min) + (sep + Render(max)), Render(min') + (sep + Render(max')));
    RenderHasNoSpace(min);
    RenderHasNoSpace(min');
    SplitBeforeSpace(Render(min), sep + Render(max), Render(min'), sep + Render(max'));
    RenderInjective(min, min');
    DropCommonPrefix(sep, Render(max), Render(max'));
    RenderInjective(max, max');
  }
}
