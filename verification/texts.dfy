/** Text as the mobile code treats it: trimming, and text with its white space deleted. */
module Texts {
  /** White space and line terminators, as String.prototype.trim removes them. */
  predicate IsSpace(c: char) {
    || '\t' <= c <= '\r'
    || c == ' ' || c == '\U{00A0}' || c == '\U{1680}'
    || '\U{2000}' <= c <= '\U{200A}'
    || c == '\U{2028}' || c == '\U{2029}' || c == '\U{202F}' || c == '\U{205F}' || c == '\U{3000}' || c == '\U{FEFF}'
  }

  function Squash(s: string): string {
    if s == "" then ""
    else if IsSpace(s[0]) then Squash(s[1..])
    else [s[0]] + Squash(s[1..])
  }

  function TrimStart(s: string): string {
    if s != "" && IsSpace(s[0]) then TrimStart(s[1..]) else s
  }

  function TrimEnd(s: string): string {
    if s != "" && IsSpace(s[|s| - 1]) then TrimEnd(s[..|s| - 1]) else s
  }

  function Trim(s: string): string {
    TrimEnd(TrimStart(s))
  }

  predicate Blank(s: string) {
    Trim(s) == ""
  }

  lemma {:induction false} SquashConcat(s: string, t: string)
    ensures Squash(s + t) == Squash(s) + Squash(t)
  {
    if s == "" {
      assert s + t == t;
    } else {
      assert (s + t)[1..] == s[1..] + t;
      SquashConcat(s[1..], t);
    }
  }

  lemma {:induction false} SquashTrimStart(s: string)
    ensures Squash(TrimStart(s)) == Squash(s)
  {
    if s != "" && IsSpace(s[0]) {
      SquashTrimStart(s[1..]);
    }
  }

  lemma {:induction false} SquashTrimEnd(s: string)
    ensures Squash(TrimEnd(s)) == Squash(s)
  {
    if s != "" && IsSpace(s[|s| - 1]) {
      var last := s[|s| - 1..];
      assert s == s[..|s| - 1] + last;
      SquashConcat(s[..|s| - 1], last);
      assert last[1..] == "";
      SquashTrimEnd(s[..|s| - 1]);
    }
  }

  /** Trimming deletes only white space, and all of it when nothing else is there. */
  lemma TrimKeepsText(s: string)
    ensures Squash(Trim(s)) == Squash(s)
    ensures Blank(s) <==> Squash(s) == ""
  {
    SquashTrimStart(s);
    SquashTrimEnd(TrimStart(s));
    if Trim(s) != "" {
      TrimmedStart(s);
      TrimmedEnd(TrimStart(s));
    }
  }

  lemma {:induction false} TrimmedStart(s: string)
    ensures TrimStart(s) == "" || !IsSpace(TrimStart(s)[0])
  {
    if s != "" && IsSpace(s[0]) {
      TrimmedStart(s[1..]);
    }
  }

  lemma {:induction false} TrimmedEnd(s: string)
    ensures TrimEnd(s) <= s
    ensures TrimEnd(s) == "" || !IsSpace(TrimEnd(s)[|TrimEnd(s)| - 1])
  {
    if s != "" && IsSpace(s[|s| - 1]) {
      TrimmedEnd(s[..|s| - 1]);
    }
  }

  /** A trimmed text neither starts nor ends with white space. */
  lemma TrimIsTight(s: string)
    ensures var t := Trim(s); t == "" || (!IsSpace(t[0]) && !IsSpace(t[|t| - 1]))
  {
    TrimmedStart(s);
    TrimmedEnd(TrimStart(s));
  }

  lemma Regroup(a: string, b: string, c: string)
    ensures (a + b) + c == a + (b + c)
    ensures b == "" ==> a + (b + c) == a + c
  {
    if b == "" { assert b + c == c; }
  }
}
