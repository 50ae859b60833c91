/**
 * Building blocks shared by every endpoint model: optional values, endpoint
 * results, the four sales industries, ASCII case mapping as used by the
 * handlers' ToLower/ToUpper switches, first-match lookups on tables stored as
 * sequences of rows, and fresh identity values.
 */
module Common {

  datatype Option<T> = None | Some(value: T)
  {
    function GetOr(default: T): (r: T)
      ensures this.Some? ==> r == value
      ensures this.None? ==> r == default
    {
      if this.Some? then value else default
    }
  }

  /** The HTTP outcomes the handlers produce besides success. */
  datatype ApiError =
    | Unauthorized                  // 401
    | Forbidden                     // 403
    | NotFound(message: string)     // 404
    | BadRequest(message: string)   // 400
    | ServerError                   // 500: an unhandled exception, nothing saved

  datatype Result<T> = Ok(value: T) | Err(error: ApiError)

  /** The four near-identical allocation and rate tables, one per industry. */
  datatype Industry = Solar | Pest | Roofing | Fiber

  /** The label a unified allocation row carries ("Solar", "Pest", ...). */
  function IndustryLabel(i: Industry): string
  {
    match i
    case Solar => "Solar"
    case Pest => "Pest"
    case Roofing => "Roofing"
    case Fiber => "Fiber"
  }

  /** The route segment the handlers switch on after lowering it. */
  function IndustryKey(i: Industry): string
  {
    match i
    case Solar => "solar"
    case Pest => "pest"
    case Roofing => "roofing"
    case Fiber => "fiber"
  }

  function LowerChar(c: char): char
  {
    if 'A' <= c <= 'Z' then (c as int + 32) as char else c
  }

  function UpperChar(c: char): char
  {
    if 'a' <= c <= 'z' then (c as int - 32) as char else c
  }

  /** String.ToLower restricted to ASCII letters. */
  function ToLower(s: string): (r: string)
    ensures |r| == |s|
    ensures forall i :: 0 <= i < |s| ==> r[i] == LowerChar(s[i])
  {
    if s == [] then [] else [LowerChar(s[0])] + ToLower(s[1..])
  }

  /** String.ToUpper restricted to ASCII letters. */
  function ToUpper(s: string): (r: string)
    ensures |r| == |s|
    ensures forall i :: 0 <= i < |s| ==> r[i] == UpperChar(s[i])
  {
    if s == [] then [] else [UpperChar(s[0])] + ToUpper(s[1..])
  }

  lemma ToLowerIdempotent(s: string)
    ensures ToLower(ToLower(s)) == ToLower(s)
  {
  }

  lemma ToUpperIdempotent(s: string)
    ensures ToUpper(ToUpper(s)) == ToUpper(s)
  {
  }

  predicate StartsWith(s: string, prefix: string)
  {
    |prefix| <= |s| && s[..|prefix|] == prefix
  }

  /** One differing character within the prefix's length rules the prefix out. */
  lemma NotStartsWith(s: string, prefix: string, i: nat)
    requires i < |prefix| && i < |s| && s[i] != prefix[i]
    ensures !StartsWith(s, prefix)
  {
    if |prefix| <= |s| {
      assert s[..|prefix|][i] == s[i];
    }
  }

  /** `switch (industry.ToLower())` over the four table names. */
  function ParseIndustry(s: string): (r: Option<Industry>)
    ensures r.Some? ==> ToLower(s) == IndustryKey(r.value)
    ensures r.None? ==> forall i :: ToLower(s) != IndustryKey(i)
  {
    var k := ToLower(s);
    if k == "solar" then Some(Solar)
    else if k == "pest" then Some(Pest)
    else if k == "roofing" then Some(Roofing)
    else if k == "fiber" then Some(Fiber)
    else None
  }

  /** Parsing ignores letter case: every spelling of a key parses the same. */
  lemma ParseIndustryCaseInsensitive(s: string)
    ensures ParseIndustry(ToLower(s)) == ParseIndustry(s)
  {
    ToLowerIdempotent(s);
  }

  /** Each table name round-trips through parsing. */
  lemma ParseIndustryKey(i: Industry)
    ensures ParseIndustry(IndustryKey(i)) == Some(i)
  {
    var k := IndustryKey(i);
    assert ToLower(k) == k;
  }

  /** A partial update of one field: the supplied value, or `current` when none is supplied. */
  function Supplied<T>(current: T, given: Option<T>): T
  {
    if given.Some? then given.value else current
  }

  /** The supplied value of a nullable column, or its current value when none is supplied. */
  function SuppliedOpt<T>(current: Option<T>, given: Option<T>): (r: Option<T>)
    ensures given.Some? ==> r == given
    ensures given.None? ==> r == current
  {
    if given.Some? then given else current
  }

  /** Index of the first element satisfying `p`, the way a FirstOrDefault or FindAsync on a table picks a row. */
  function IndexWhere<T>(s: seq<T>, p: T -> bool): (r: Option<nat>)
    ensures r.Some? ==> r.value < |s| && p(s[r.value])
    ensures r.Some? ==> forall j :: 0 <= j < r.value ==> !p(s[j])
    ensures r.None? ==> forall j :: 0 <= j < |s| ==> !p(s[j])
  {
    IndexWhereFrom(s, p, 0)
  }

  /** Index of the first element at or after `i` satisfying `p`. */
  function IndexWhereFrom<T>(s: seq<T>, p: T -> bool, i: nat): (r: Option<nat>)
    requires i <= |s|
    ensures r.Some? ==> i <= r.value < |s| && p(s[r.value])
    ensures r.Some? ==> forall j :: i <= j < r.value ==> !p(s[j])
    ensures r.None? ==> forall j :: i <= j < |s| ==> !p(s[j])
    decreases |s| - i
  {
    if i == |s| then None
    else if p(s[i]) then Some(i)
    else IndexWhereFrom(s, p, i + 1)
  }

  /** Two sequences that agree on `p` element by element have the same first match. */
  lemma IndexWhereCongruent<T>(s: seq<T>, t: seq<T>, p: T -> bool)
    requires |s| == |t|
    requires forall j :: 0 <= j < |s| ==> p(s[j]) == p(t[j])
    ensures IndexWhere(s, p) == IndexWhere(t, p)
  {
  }

  /** An identity value larger than every identity already used, as a database identity column yields. */
  function NextId<T>(s: seq<T>, id: T -> int): (r: int)
    ensures r >= 1
    ensures forall j :: 0 <= j < |s| ==> id(s[j]) < r
  {
    NextIdFrom(s, id, 0)
  }

  /** One more than the largest identity at or after `i`, and at least 1. */
  function NextIdFrom<T>(s: seq<T>, id: T -> int, i: nat): (r: int)
    requires i <= |s|
    ensures r >= 1
    ensures forall j :: i <= j < |s| ==> id(s[j]) < r
    decreases |s| - i
  {
    if i == |s| then 1
    else
      var rest := NextIdFrom(s, id, i + 1);
      if id(s[i]) + 1 > rest then id(s[i]) + 1 else rest
  }

  function DigitChar(d: nat): char
    requires d < 10
  {
    "0123456789"[d]
  }

  /** The decimal digits of `n`, most significant first. */
  function NatToString(n: nat): (s: string)
    ensures |s| >= 1
    ensures forall i :: 0 <= i < |s| ==> '0' <= s[i] <= '9'
    decreases n
  {
    if n < 10 then [DigitChar(n)] else NatToString(n / 10) + [DigitChar(n % 10)]
  }

  /** An integer written in decimal, as string interpolation renders it. */
  function IntToString(n: int): (s: string)
    ensures n >= 0 ==> s == NatToString(n)
    ensures n < 0 ==> s == "-" + NatToString(-n)
  {
    if n < 0 then "-" + NatToString(-n) else NatToString(n)
  }
}
