/** String helpers with the meaning of the Go library functions the renderer relies on.
    Strings stand for Go byte strings: one `char` is one byte. */
module Text {

  /** `strings.TrimSuffix(s, suffix)`: drops one copy of `suffix` from the end of `s`
      when `s` ends with it, and leaves `s` alone otherwise. */
  function TrimSuffix(s: string, suffix: string): (r: string)
    ensures r <= s
    ensures r == s || r + suffix == s
    ensures EndsWith(s, suffix) ==> r + suffix == s
    ensures !EndsWith(s, suffix) ==> r == s
  {
    if EndsWith(s, suffix) then s[..|s| - |suffix|] else s
  }

  predicate EndsWith(s: string, suffix: string) {
    |suffix| <= |s| && s[|s| - |suffix|..] == suffix
  }

  /** The values joined by single spaces, with no space before the first or after the last. */
  function Join(vs: seq<string>): string {
    if |vs| == 0 then "" else if |vs| == 1 then vs[0] else vs[0] + " " + Join(vs[1..])
  }

  lemma {:induction false} JoinSnoc(vs: seq<string>, v: string)
    requires |vs| > 0
    ensures Join(vs + [v]) == Join(vs) + " " + v
  {
    if |vs| == 1 {
      assert (vs + [v])[1..] == [v];
    } else {
      assert (vs + [v])[1..] == vs[1..] + [v];
      JoinSnoc(vs[1..], v);
    }
  }

  /** Joining two non-empty lists puts exactly one space between their joins. */
  lemma {:induction false} JoinAppend(a: seq<string>, b: seq<string>)
    requires |a| > 0 && |b| > 0
    ensures Join(a + b) == Join(a) + " " + Join(b)
  {
    if |a| == 1 {
      assert (a + b)[1..] == b;
    } else {
      assert (a + b)[1..] == a[1..] + b;
      JoinAppend(a[1..], b);
    }
  }

  /** `n` copies of `ch` (none when `n` is not positive). */
  function Repeat(ch: string, n: int): string
    decreases if n < 0 then 0 else n
  {
    if n <= 0 then "" else Repeat(ch, n - 1) + ch
  }

  /** Concatenation regrouped to the left. */
  lemma Associative(a: string, b: string, c: string)
    ensures a + (b + c) == a + b + c
  {
  }

  /** Repeating a one-character string `n` times gives `n` copies of that character. */
  lemma {:induction false} RepeatChar(c: char, n: int)
    ensures |Repeat([c], n)| == (if n < 0 then 0 else n)
    ensures forall k :: 0 <= k < |Repeat([c], n)| ==> Repeat([c], n)[k] == c
    decreases if n < 0 then 0 else n
  {
    if n > 0 {
      RepeatChar(c, n - 1);
    }
  }

  /** The `putNChar` closure of `parseElement`: appends `ch` to `s`, `n` times. */
  method PutNChar(s: string, ch: string, n: int) returns (r: string)
    ensures r == s + Repeat(ch, n)
  {
    r := s;
    var i := 0;
    while i < n
      invariant 0 <= i <= (if n < 0 then 0 else n)
      invariant r == s + Repeat(ch, i)
    {
      r := r + ch;
      i := i + 1;
    }
  }
}
