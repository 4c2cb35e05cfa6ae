/** Shared vocabulary: optional values, the error outcomes the services raise,
    JSON-like dictionary values, the string primitives the source relies on
    (Python's str.split/strip/lower, SQL ILIKE '%q%'), and SQL paging. */
module Common {

  datatype Option<+T> = None | Some(value: T)

  /** The HTTP errors and store exceptions the core raises instead of returning. */
  datatype Error =
    | NotFound        // 404
    | BadRequest      // 400
    | Unauthorized    // 401
    | Forbidden       // 403
    | IntegrityError  // a unique, NOT NULL or foreign-key constraint rejected the commit
    | DataError       // the store could not cast a value to the column type
    | Unprocessable   // 422: the request body failed its schema's field constraints

  datatype Result<+T> = Ok(value: T) | Err(error: Error)

  /** A value held in one of the source's dictionaries. A timestamp is kept as
      the instant it encodes (JTime); its ISO-8601 text is not modelled. */
  datatype Json =
    | JNull
    | JBool(b: bool)
    | JInt(i: int)
    | JReal(r: real)
    | JStr(s: string)
    | JTime(t: int)
    | JList(items: seq<Json>)
    | JObj(fields: map<string, Json>)

  /** One field of a Pydantic model dumped with `exclude_unset=True`: left
      out, given as an explicit null, or given a value. */
  datatype Patch<+T> = Unset | SetNull | SetTo(value: T)

  /** The value a set patch field carries; None for an explicit null. */
  function PatchValue<T>(p: Patch<T>): Option<T>
    requires !p.Unset?
  {
    if p.SetNull? then None else Some(p.value)
  }

  function OptStr(o: Option<string>): Json {
    if o.Some? then JStr(o.value) else JNull
  }

  function OptTime(o: Option<int>): Json {
    if o.Some? then JTime(o.value) else JNull
  }

  lemma OptTimeInjective(a: Option<int>, b: Option<int>)
    requires OptTime(a) == OptTime(b)
    ensures a == b
  {
  }

  function Min(a: int, b: int): int { if a <= b then a else b }
  function Max(a: int, b: int): int { if a >= b then a else b }

  /** Python truthiness of an optional string: present and non-empty. */
  predicate Truthy(o: Option<string>) {
    o.Some? && o.value != ""
  }

  /** Python truthiness of a value read back from JSON. */
  predicate JsonTruthy(j: Json) {
    match j
    case JNull => false
    case JBool(b) => b
    case JInt(i) => i != 0
    case JReal(r) => r != 0.0
    case JStr(s) => s != ""
    case JTime(_) => true
    case JList(xs) => xs != []
    case JObj(f) => f != map[]
  }

  // ---------------------------------------------------------------- strings

  /** Characters Python's str.isspace() accepts (what str.split() and
      str.strip() with no argument cut on). */
  predicate IsSpace(c: char) {
    var n := c as int;
    (9 <= n <= 13) || (28 <= n <= 32) || n == 0x85 || n == 0xA0 || n == 0x1680
    || (0x2000 <= n <= 0x200A) || n == 0x2028 || n == 0x2029 || n == 0x202F
    || n == 0x205F || n == 0x3000
  }

  function LowerChar(c: char): char {
    if 'A' <= c <= 'Z' then (c as int + 32) as char else c
  }

  /** ASCII lower-casing. */
  function Lower(s: string): (r: string)
    ensures |r| == |s|
    ensures forall i :: 0 <= i < |s| ==> r[i] == LowerChar(s[i])
  {
    if s == [] then [] else [LowerChar(s[0])] + Lower(s[1..])
  }

  function UpperChar(c: char): char {
    if 'a' <= c <= 'z' then (c as int - 32) as char else c
  }

  /** ASCII upper-casing. */
  function Upper(s: string): (r: string)
    ensures |r| == |s|
    ensures forall i :: 0 <= i < |s| ==> r[i] == UpperChar(s[i])
  {
    if s == [] then [] else [UpperChar(s[0])] + Upper(s[1..])
  }

  /** `sub` occurs in `s` at some position (SQL LIKE '%sub%'). */
  predicate Contains(s: string, sub: string) {
    exists i :: 0 <= i <= |s| - |sub| && OccursAt(s, sub, i)
  }

  predicate OccursAt(s: string, sub: string, i: nat)
    requires i + |sub| <= |s|
  {
    s[i..i + |sub|] == sub
  }

  /** SQL `s ILIKE '%q%'`, with ASCII case folding. */
  predicate ContainsIgnoreCase(s: string, q: string) {
    Contains(Lower(s), Lower(q))
  }

  /** Number of leading characters of `s` that are not whitespace. */
  function WordLength(s: string): (n: nat)
    ensures n <= |s|
    ensures forall i :: 0 <= i < n ==> !IsSpace(s[i])
    ensures n < |s| ==> IsSpace(s[n])
  {
    if s == [] || IsSpace(s[0]) then 0 else 1 + WordLength(s[1..])
  }

  /** `s` without its whitespace characters. */
  function NonSpace(s: string): string {
    if s == [] then [] else (if IsSpace(s[0]) then [] else [s[0]]) + NonSpace(s[1..])
  }

  lemma {:induction false} NonSpaceAppend(a: string, b: string)
    ensures NonSpace(a + b) == NonSpace(a) + NonSpace(b)
  {
    if a == [] {
      assert a + b == b;
    } else {
      assert (a + b)[1..] == a[1..] + b;
      NonSpaceAppend(a[1..], b);
    }
  }

  lemma {:induction false} NonSpaceOfWord(w: string)
    requires forall i :: 0 <= i < |w| ==> !IsSpace(w[i])
    ensures NonSpace(w) == w
  {
    if w != [] {
      NonSpaceOfWord(w[1..]);
    }
  }

  /** The strings of `ws` one after the other. */
  function Concat(ws: seq<string>): string {
    if ws == [] then [] else ws[0] + Concat(ws[1..])
  }

  /** Python's `s.split()`: the maximal runs of non-whitespace characters.
      The pieces are non-empty and free of whitespace, and together they
      are the characters of `s` that are not whitespace, in order. */
  function Words(s: string): (ws: seq<string>)
    ensures forall k :: 0 <= k < |ws| ==> ws[k] != [] && forall i :: 0 <= i < |ws[k]| ==> !IsSpace(ws[k][i])
    ensures Concat(ws) == NonSpace(s)
    decreases |s|
  {
    if s == [] then []
    else if IsSpace(s[0]) then Words(s[1..])
    else
      var n := WordLength(s);
      var ws := [s[..n]] + Words(s[n..]);
      assert s == s[..n] + s[n..];
      NonSpaceAppend(s[..n], s[n..]);
      NonSpaceOfWord(s[..n]);
      assert ws[0] == s[..n] && ws[1..] == Words(s[n..]);
      ws
  }

  lemma {:induction false} NonSpaceEmpty(s: string)
    ensures NonSpace(s) == [] <==> forall i :: 0 <= i < |s| ==> IsSpace(s[i])
  {
    if s != [] {
      NonSpaceEmpty(s[1..]);
      assert forall i :: 1 <= i < |s| ==> s[1..][i - 1] == s[i];
    }
  }

  /** `s.split()` is empty exactly when `s` is all whitespace. */
  lemma WordsOfBlank(s: string)
    ensures Words(s) == [] <==> forall i :: 0 <= i < |s| ==> IsSpace(s[i])
  {
    NonSpaceEmpty(s);
    var ws := Words(s);
    if ws != [] {
      assert Concat(ws) == ws[0] + Concat(ws[1..]);
      assert |ws[0]| > 0;
    }
  }

  /** Number of leading whitespace characters of `s`. */
  function LeadingSpaces(s: string): (n: nat)
    ensures n <= |s|
    ensures forall k :: 0 <= k < n ==> IsSpace(s[k])
    ensures n < |s| ==> !IsSpace(s[n])
  {
    if s != [] && IsSpace(s[0]) then 1 + LeadingSpaces(s[1..]) else 0
  }

  function TrimStart(s: string): (r: string)
    ensures r == [] || !IsSpace(r[0])
    ensures |r| <= |s| && r == s[|s| - |r|..]
    ensures |s| - |r| == LeadingSpaces(s)
  {
    if s != [] && IsSpace(s[0]) then TrimStart(s[1..]) else s
  }

  function TrimEnd(s: string): (r: string)
    ensures r == [] || !IsSpace(r[|r| - 1])
    ensures r <= s
    ensures forall i :: |r| <= i < |s| ==> IsSpace(s[i])
  {
    if s != [] && IsSpace(s[|s| - 1]) then TrimEnd(s[..|s| - 1]) else s
  }

  /** Python's `s.strip()`: `s` is its leading whitespace, then `r`, then
      whitespace, and `r` neither starts nor ends with whitespace. */
  function Strip(s: string): (r: string)
    ensures r == [] || (!IsSpace(r[0]) && !IsSpace(r[|r| - 1]))
    ensures LeadingSpaces(s) + |r| <= |s|
    ensures r == s[LeadingSpaces(s)..LeadingSpaces(s) + |r|]
    ensures forall k :: LeadingSpaces(s) + |r| <= k < |s| ==> IsSpace(s[k])
  {
    var t := TrimStart(s);
    var r := TrimEnd(t);
    PrefixOfSuffix(s, |s| - |t|, r);
    r
  }

  /** A prefix `r` of the suffix of `s` from `i` on is the slice of `s` from
      `i`, and what follows it in `s` is what follows it in that suffix. */
  lemma PrefixOfSuffix(s: string, i: nat, r: string)
    requires i <= |s| && r <= s[i..]
    ensures i + |r| <= |s| && r == s[i..i + |r|]
    ensures forall k :: i + |r| <= k < |s| ==> s[k] == s[i..][k - i]
  {
  }

  /** Python's `s.split(c)[0]`: everything before the first `c`. */
  function BeforeFirst(s: string, c: char): (r: string)
    ensures r <= s
    ensures c !in r
    ensures |r| < |s| ==> s[|r|] == c
  {
    if s == [] || s[0] == c then [] else [s[0]] + BeforeFirst(s[1..], c)
  }

  /** Cutting `a + [c] + rest` at its first `c` gives back `a` when `a`
      holds no `c`. */
  lemma {:induction false} BeforeFirstOfJoin(a: string, c: char, rest: string)
    requires c !in a
    ensures BeforeFirst(a + [c] + rest, c) == a
  {
    if a != [] {
      assert (a + [c] + rest)[1..] == a[1..] + [c] + rest;
      BeforeFirstOfJoin(a[1..], c, rest);
    }
  }

  // ----------------------------------------------------------------- paging

  /** SQL `OFFSET offset LIMIT limit` over rows in `xs`. */
  function Page<T>(xs: seq<T>, offset: nat, limit: nat): (r: seq<T>)
    ensures |r| == Min(limit, Max(0, |xs| - offset))
    ensures forall i :: 0 <= i < |r| ==> r[i] == xs[offset + i]
  {
    if offset >= |xs| then [] else xs[offset..Min(offset + limit, |xs|)]
  }

  predicate Distinct<T(==)>(xs: seq<T>) {
    forall i, j :: 0 <= i < j < |xs| ==> xs[i] != xs[j]
  }

  /** The first occurrence of each element, in order (how an ORM query over
      one entity collapses repeated rows of the same object). */
  function Dedup<T(==,!new)>(xs: seq<T>): (r: seq<T>)
    ensures |r| <= |xs|
    ensures forall x :: x in r <==> x in xs
    ensures Distinct(r)
  {
    if xs == [] then []
    else
      var rest := Dedup(xs[..|xs| - 1]);
      if xs[|xs| - 1] in rest then rest else rest + [xs[|xs| - 1]]
  }

  /** The rows of an unordered query result, in whatever order the store
      returns them. */
  method Enumerate<T>(s: set<T>) returns (xs: seq<T>)
    ensures |xs| == |s|
    ensures forall x :: x in xs <==> x in s
    ensures Distinct(xs)
  {
    xs := [];
    var rest := s;
    while rest != {}
      invariant rest <= s
      invariant forall x :: x in xs <==> x in s && x !in rest
      invariant Distinct(xs)
      invariant |xs| + |rest| == |s|
      decreases |rest|
    {
      var x :| x in rest;
      xs := xs + [x];
      rest := rest - {x};
    }
  }

  /** A page of an unordered query: the total counts every row before
      OFFSET and LIMIT; the page holds distinct rows of the result. */
  method PageOfSet<T>(s: set<T>, offset: nat, limit: nat) returns (page: seq<T>, total: nat)
    ensures total == |s|
    ensures |page| == Min(limit, Max(0, total - offset))
    ensures Distinct(page) && forall x :: x in page ==> x in s
    ensures offset == 0 && total <= limit ==> forall x :: x in s ==> x in page
  {
    var rows := Enumerate(s);
    total := |rows|;
    page := Page(rows, offset, limit);
    if offset == 0 && total <= limit {
      assert page == rows;
    }
  }
}
