/** The string functions the reply parser is built from. A string is a sequence of runes. */
module GoStrings {
  import opened Wrappers

  /** White space as the string library sees it. */
  predicate IsSpace(c: char) {
    || c == ' ' || '\U{9}' <= c <= '\U{D}' || c == '\U{85}' || c == '\U{A0}' || c == '\U{1680}'
    || '\U{2000}' <= c <= '\U{200A}' || c == '\U{2028}' || c == '\U{2029}' || c == '\U{202F}'
    || c == '\U{205F}' || c == '\U{3000}'
  }

  predicate HasPrefix(s: string, p: string) {
    |p| <= |s| && s[..|p|] == p
  }

  predicate HasSuffix(s: string, x: string) {
    |x| <= |s| && s[|s| - |x|..] == x
  }

  function TrimPrefix(s: string, p: string): string {
    if HasPrefix(s, p) then s[|p|..] else s
  }

  function TrimSuffix(s: string, x: string): string {
    if HasSuffix(s, x) then s[..|s| - |x|] else s
  }

  function TrimLeft(s: string): string {
    if s != [] && IsSpace(s[0]) then TrimLeft(s[1..]) else s
  }

  function TrimRight(s: string): string {
    if s != [] && IsSpace(s[|s| - 1]) then TrimRight(s[..|s| - 1]) else s
  }

  function TrimSpace(s: string): string {
    TrimRight(TrimLeft(s))
  }

  /** The length of the leading stretch without white space. */
  function WordLength(s: string): (n: nat)
    ensures n <= |s| && (forall i :: 0 <= i < n ==> !IsSpace(s[i])) && (n < |s| ==> IsSpace(s[n]))
  {
    if s == [] || IsSpace(s[0]) then 0 else 1 + WordLength(s[1..])
  }

  /** The words of a string. */
  function Fields(s: string): seq<string>
    decreases |s|
  {
    if s == [] then []
    else if IsSpace(s[0]) then Fields(s[1..])
    else [s[..WordLength(s)]] + Fields(s[WordLength(s)..])
  }

  function Join(parts: seq<string>): string {
    if parts == [] then "" else if |parts| == 1 then parts[0] else parts[0] + " " + Join(parts[1..])
  }

  function IndexOf(s: string, c: char): (n: nat)
    ensures n <= |s| && (forall i :: 0 <= i < n ==> s[i] != c) && (n < |s| ==> s[n] == c)
  {
    if s == [] || s[0] == c then 0 else 1 + IndexOf(s[1..], c)
  }

  /** At most n parts around a separator rune. */
  function SplitN(s: string, c: char, n: nat): seq<string>
    decreases |s|
  {
    if n == 0 then []
    else if n == 1 || IndexOf(s, c) == |s| then [s]
    else [s[..IndexOf(s, c)]] + SplitN(s[IndexOf(s, c) + 1..], c, n - 1)
  }

  // ---- Decimal numbers ----

  const MAX_INT := 0x7FFF_FFFF_FFFF_FFFF

  function Digit(d: nat): char
    requires d < 10
  {
    "0123456789"[d]
  }

  predicate IsDigit(c: char) {
    '0' <= c <= '9'
  }

  /** Decimal printing of a natural number. */
  function Itoa(n: nat): (s: string)
    ensures s != [] && forall i :: 0 <= i < |s| ==> IsDigit(s[i])
  {
    if n < 10 then [Digit(n)] else Itoa(n / 10) + [Digit(n % 10)]
  }

  function Value(s: string): nat
    requires forall i :: 0 <= i < |s| ==> IsDigit(s[i])
  {
    if s == [] then 0
    else
      var last := s[|s| - 1];
      assert IsDigit(last);
      10 * Value(s[..|s| - 1]) + (last as int - '0' as int)
  }

  predicate AllDigits(s: string) {
    s != [] && forall i :: 0 <= i < |s| ==> IsDigit(s[i])
  }

  /** Decimal parsing into a 64-bit integer, with an optional sign. */
  function Atoi(s: string): (r: Option<int>) {
    var negative := s != [] && s[0] == '-';
    var digits := if s != [] && (s[0] == '-' || s[0] == '+') then s[1..] else s;
    if !AllDigits(digits) then None
    else if negative then (if Value(digits) <= MAX_INT + 1 then Some(0 - Value(digits)) else None)
    else if Value(digits) <= MAX_INT then Some(Value(digits)) else None
  }

  lemma {:induction false} ValueOfItoa(n: nat)
    ensures Value(Itoa(n)) == n
  {
    if n < 10 {
      assert Itoa(n)[..0] == [];
    } else {
      ValueOfItoa(n / 10);
      var s := Itoa(n);
      assert s[..|s| - 1] == Itoa(n / 10) && s[|s| - 1] == Digit(n % 10);
    }
  }

  lemma AtoiOfItoa(n: nat)
    requires n <= MAX_INT
    ensures Atoi(Itoa(n)) == Some(n)
  {
    ValueOfItoa(n);
    assert IsDigit(Itoa(n)[0]);
  }

  // ---- Words ----

  /** A non-empty string without white space. */
  predicate IsWord(s: string) {
    s != [] && forall i :: 0 <= i < |s| ==> !IsSpace(s[i])
  }

  lemma {:induction false} WordLengthOf(w: string, rest: string)
    requires IsWord(w) && (rest != [] ==> IsSpace(rest[0]))
    ensures WordLength(w + rest) == |w|
  {
    assert forall i :: 0 <= i < |w| ==> (w + rest)[i] == w[i];
    assert rest != [] ==> (w + rest)[|w|] == rest[0];
  }

  lemma FieldsWord(w: string)
    requires IsWord(w)
    ensures Fields(w) == [w]
  {
    WordLengthOf(w, "");
    assert w + "" == w;
  }

  lemma FieldsStep(w: string, rest: string)
    requires IsWord(w)
    ensures Fields(w + " " + rest) == [w] + Fields(rest)
  {
    var s := w + " " + rest;
    assert s == w + (" " + rest);
    WordLengthOf(w, " " + rest);
    assert s[0] == w[0] && s[..|w|] == w && s[|w|..] == " " + rest && (" " + rest)[1..] == rest;
  }

  lemma {:induction false} TrimRightKeeps(s: string, t: string)
    requires s != [] && !IsSpace(s[|s| - 1])
    ensures TrimRight(s + t) == s + TrimRight(t)
    decreases |t|
  {
    if t == [] {
      assert s + t == s;
    } else if IsSpace(t[|t| - 1]) {
      assert (s + t)[..|s + t| - 1] == s + t[..|t| - 1];
      TrimRightKeeps(s, t[..|t| - 1]);
    }
  }

  lemma {:induction false} TrimRightLead(c: char, t: string)
    requires IsSpace(c)
    ensures TrimRight([c] + t) == if TrimRight(t) == "" then "" else [c] + TrimRight(t)
    decreases |t|
  {
    if t == [] {
      assert [c] + t == [c] && [c][..0] == [];
    } else if IsSpace(t[|t| - 1]) {
      assert ([c] + t)[..|t|] == [c] + t[..|t| - 1];
      TrimRightLead(c, t[..|t| - 1]);
    }
  }

  lemma TrimSpaceKeeps(s: string)
    requires s != [] && !IsSpace(s[0]) && !IsSpace(s[|s| - 1])
    ensures TrimSpace(s) == s
  {
  }

  lemma SplitStep(w: string, rest: string, n: nat)
    requires n >= 2 && forall i :: 0 <= i < |w| ==> w[i] != ' '
    ensures SplitN(w + " " + rest, ' ', n) == [w] + SplitN(rest, ' ', n - 1)
  {
    var s := w + " " + rest;
    var k := IndexOf(s, ' ');
    assert s[|w|] == ' ' && forall i :: 0 <= i < |w| ==> s[i] == w[i];
    assert s[..|w|] == w && s[|w| + 1..] == rest;
  }

  lemma SplitWord(w: string, n: nat)
    requires n >= 1 && forall i :: 0 <= i < |w| ==> w[i] != ' '
    ensures SplitN(w, ' ', n) == [w]
  {
    var k := IndexOf(w, ' ');
  }

  /** Taking the second word of a concatenation with the rest. */
  lemma Regroup(head: string, w: string, rest: string)
    ensures head + w + " " + rest == head + (w + " " + rest)
  {
  }

  lemma TwoFirst(a: string, b: string, rest: seq<string>)
    ensures [a] + ([b] + rest) == [a, b] + rest
  {
  }

  lemma SplitSecond(a: string, b: string, rest: string, tail: string, n: nat)
    requires n >= 3 && IsWord(a) && IsWord(b) && tail == b + " " + rest
    ensures SplitN(a + " " + tail, ' ', n) == [a, b] + SplitN(rest, ' ', n - 2)
  {
    SplitStep(a, tail, n);
    SplitStep(b, rest, n - 1);
    TwoFirst(a, b, SplitN(rest, ' ', n - 2));
  }

  lemma SplitTwo(a: string, b: string, rest: string, n: nat)
    requires n >= 3 && IsWord(a) && IsWord(b)
    ensures SplitN(a + " " + b + " " + rest, ' ', n) == [a, b] + SplitN(rest, ' ', n - 2)
  {
    Regroup(a + " ", b, rest);
    SplitSecond(a, b, rest, b + " " + rest, n);
  }

  lemma SplitIn4(a: string, b: string, c: string, d: string)
    requires IsWord(a) && IsWord(b) && IsWord(c)
    ensures SplitN(a + " " + b + " " + (c + " " + d), ' ', 4) == [a, b, c, d]
  {
    SplitTwo(a, b, c + " " + d, 4);
    SplitStep(c, d, 2);
  }

  lemma ThreeFirst(a: string, b: string, c: string, rest: seq<string>)
    ensures [a, b] + ([c] + rest) == [a, b, c] + rest
  {
  }

  /** With a limit of five, the part after a third word. */
  lemma SplitIn5(a: string, b: string, c: string, tail: string)
    requires IsWord(a) && IsWord(b) && IsWord(c)
    ensures SplitN(a + " " + b + " " + (c + " " + tail), ' ', 5) == [a, b, c] + SplitN(tail, ' ', 2)
  {
    SplitTwo(a, b, c + " " + tail, 5);
    SplitStep(c, tail, 3);
    ThreeFirst(a, b, c, SplitN(tail, ' ', 2));
  }

  // ---- Joining the words again ----

  lemma {:induction false} FieldsAreWords(s: string)
    ensures forall i :: 0 <= i < |Fields(s)| ==> IsWord(Fields(s)[i])
    decreases |s|
  {
    if s == [] {
    } else if IsSpace(s[0]) {
      FieldsAreWords(s[1..]);
    } else {
      FieldsAreWords(s[WordLength(s)..]);
      assert IsWord(s[..WordLength(s)]);
    }
  }

  lemma {:induction false} JoinEnds(parts: seq<string>)
    requires parts != [] && forall i :: 0 <= i < |parts| ==> IsWord(parts[i])
    ensures Join(parts) != "" && !IsSpace(Join(parts)[|Join(parts)| - 1])
  {
    if |parts| > 1 {
      JoinEnds(parts[1..]);
    }
  }

  /** One more rune lengthens the last word. */
  lemma {:induction false} FieldsSnoc(s: string, c: char)
    requires s != [] && !IsSpace(s[|s| - 1]) && !IsSpace(c)
    ensures Fields(s) != []
    ensures Fields(s + [c]) == Fields(s)[..|Fields(s)| - 1] + [Fields(s)[|Fields(s)| - 1] + [c]]
    decreases |s|
  {
    var t := s + [c];
    var n := WordLength(s);
    if IsSpace(s[0]) {
      assert t[1..] == s[1..] + [c];
      FieldsSnoc(s[1..], c);
    } else if n == |s| {
      assert s[..n] == s;
      FieldsWord(s);
      FieldsWord(t);
      assert [s][..0] + [t] == [t];
    } else {
      FieldsSnoc(s[n..], c);
      assert s == s[..n] + s[n..];
      WordLengthOf(s[..n], s[n..] + [c]);
      assert t == s[..n] + (s[n..] + [c]);
      assert t[..n] == s[..n] && t[n..] == s[n..] + [c];
      SnocAfter(s[..n], Fields(s[n..]), c);
    }
  }

  lemma SnocAfter(w: string, ws: seq<string>, c: char)
    requires ws != []
    ensures var all := [w] + ws;
      all[..|all| - 1] + [all[|all| - 1] + [c]] == [w] + (ws[..|ws| - 1] + [ws[|ws| - 1] + [c]])
  {
  }
}
