/** User codes (cloud/src/device_auth/mod.rs): eight letters and digits, shown as two groups of four. */
module UserCode {
  import opened Prelude

  const LENGTH := 8

  /** The 32 characters of the alphabet: no I, O, 0 or 1. */
  predicate InAlphabet(c: char) {
    ('A' <= c <= 'Z' && c != 'I' && c != 'O') || '2' <= c <= '9'
  }

  /** Unicode white space. */
  predicate Whitespace(c: char) {
    var n := c as int;
    0x9 <= n <= 0xd || n == 0x20 || n == 0x85 || n == 0xa0 || n == 0x1680 || 0x2000 <= n <= 0x200a ||
    n == 0x2028 || n == 0x2029 || n == 0x202f || n == 0x205f || n == 0x3000
  }

  predicate Ignored(c: char) {
    c == '-' || Whitespace(c)
  }

  function Upper(c: char): char {
    if 'a' <= c <= 'z' then ((c as int) - 32) as char else c
  }

  function Kept(c: char): string {
    if Ignored(c) then "" else [Upper(c)]
  }

  function Canonical(input: string): string {
    if input == "" then ""
    else Kept(input[0]) + Canonical(input[1..])
  }

  predicate Valid(code: string) {
    |code| == LENGTH && forall c :: c in code ==> InAlphabet(c)
  }

  /** normalize_user_code. */
  function Normalize(input: string): Option<string> {
    var code := Canonical(input);
    if Valid(code) then Some(code) else None
  }

  /** format_user_code. */
  function Format(code: string): string {
    var n := if |code| < 4 then |code| else 4;
    code[..n] + "-" + code[n..]
  }

  lemma CanonicalHead(a: string, b: string)
    requires a != ""
    ensures Canonical(a + b) == Kept(a[0]) + Canonical(a[1..] + b)
  {
    assert (a + b)[0] == a[0] && (a + b)[1..] == a[1..] + b;
  }

  lemma Regroup(a: string, b: string, c: string)
    ensures a + (b + c) == (a + b) + c
  {}

  lemma {:induction false} CanonicalJoins(a: string, b: string)
    ensures Canonical(a + b) == Canonical(a) + Canonical(b)
  {
    if a == "" {
      assert a + b == b;
    } else {
      CanonicalJoins(a[1..], b);
      CanonicalHead(a, b);
      Regroup(Kept(a[0]), Canonical(a[1..]), Canonical(b));
    }
  }

  lemma CanonicalOne(c: char)
    ensures Canonical([c]) == if Ignored(c) then "" else [Upper(c)]
  {
    assert [c][1..] == "";
  }

  lemma AlphabetIsKept(c: char)
    requires InAlphabet(c)
    ensures !Ignored(c) && Upper(c) == c
  {}

  lemma {:induction false} CanonicalKeeps(code: string)
    requires forall c :: c in code ==> InAlphabet(c)
    ensures Canonical(code) == code
  {
    if code != "" {
      assert code[0] in code;
      AlphabetIsKept(code[0]);
      CanonicalKeeps(code[1..]);
    }
  }

  /** A formatted code reads back as itself. */
  lemma FormatRoundTrip(code: string)
    requires Valid(code)
    ensures Normalize(Format(code)) == Some(code)
  {
    CanonicalJoins(code[..4] + "-", code[4..]);
    CanonicalJoins(code[..4], "-");
    CanonicalOne('-');
    CanonicalKeeps(code[..4]);
    CanonicalKeeps(code[4..]);
    assert code[..4] + "" + code[4..] == code;
  }

  /** Dashes and spaces anywhere, and the case of letters, do not matter. */
  lemma TypingDoesNotMatter(a: string, c: char, d: char, b: string)
    ensures Ignored(c) ==> Normalize(a + [c] + b) == Normalize(a + b)
    ensures Upper(c) == Upper(d) && !Ignored(c) && !Ignored(d) ==> Normalize(a + [c] + b) == Normalize(a + [d] + b)
  {
    CanonicalJoins(a, b);
    CanonicalJoins(a + [c], b);
    CanonicalJoins(a, [c]);
    CanonicalOne(c);
    CanonicalOne(d);
    CanonicalJoins(a + [d], b);
    CanonicalJoins(a, [d]);
    assert Canonical(a) + "" == Canonical(a);
  }

  /** What is accepted is a valid code, and normalizing it again changes nothing. */
  lemma NormalizedIsStable(input: string)
    ensures Normalize(input).Some? ==>
      Valid(Normalize(input).value) && Normalize(Normalize(input).value) == Normalize(input)
  {
    if Normalize(input).Some? {
      CanonicalKeeps(Normalize(input).value);
    }
  }
}
