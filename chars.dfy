/** Character runs and newline counting over a source held as a sequence of
    byte-valued characters. Both scanners consume their input through these. */
module Chars {

  /** `isDigit`. */
  predicate IsDigit(c: char) { '0' <= c <= '9' }

  /** `isAlpha` of scanner/scanner.go: ASCII letters and the underscore. */
  predicate IsAlpha(c: char) { 'a' <= c <= 'z' || 'A' <= c <= 'Z' || c == '_' }

  predicate IsAlphaNum(c: char) { IsAlpha(c) || IsDigit(c) }

  /** The characters that have a case of their own in the switch of
      scanner/scanner.go and that can begin a token; the draft adds ','. */
  predicate StartsToken(c: char)
  {
    c == '(' || c == ')' || c == '{' || c == '}' || c == ';' || c == '.' ||
    c == '+' || c == '-' || c == '*' || c == '=' || c == '!' || c == '<' ||
    c == '>' || c == '"' || c == '/'
  }

  /** `isAlpha` of the draft scanner.go, whose upper-case range is 'Z'..'Z':
      the lower-case letters, 'Z' and the underscore. */
  predicate DraftIsAlpha(c: char) { 'a' <= c <= 'z' || 'Z' <= c <= 'Z' || c == '_' }

  predicate DraftIsAlphaNum(c: char) { DraftIsAlpha(c) || IsDigit(c) }

  /** The draft's letters are the current ones less the capitals 'A' to 'Y';
      in both, letters and digits are disjoint, so the `default` case of each
      switch tries at most one of its branches. */
  lemma AlphaClasses(c: char)
    ensures DraftIsAlpha(c) <==> IsAlpha(c) && !('A' <= c <= 'Y')
    ensures IsAlpha(c) ==> !IsDigit(c)
    ensures DraftIsAlphaNum(c) ==> IsAlphaNum(c)
  {
  }

  /** The classes of characters whose maximal runs the scanners consume. */
  datatype Class = Digits | AlphaNums | DraftAlphaNums | Unquoted | LineRest | Breaks

  predicate In(cl: Class, c: char)
  {
    match cl
    case Digits => IsDigit(c)
    case AlphaNums => IsAlphaNum(c)
    case DraftAlphaNums => DraftIsAlphaNum(c)
    case Unquoted => c != '"'
    case LineRest => c != '\n'
    case Breaks => c == '\n'
  }

  /** The end of the maximal run of characters of class cl that starts at
      i: the first position from i whose character is not in cl, or the end. */
  function RunEnd(s: string, i: nat, cl: Class): (j: nat)
    requires i <= |s|
    ensures i <= j <= |s|
    ensures j < |s| ==> !In(cl, s[j])
    decreases |s| - i
  {
    if i == |s| || !In(cl, s[i]) then i else RunEnd(s, i + 1, cl)
  }

  /** Every character before the run end is in the class. */
  lemma {:induction false} RunEndInRun(s: string, i: nat, cl: Class, k: nat)
    requires i <= |s| && i <= k < RunEnd(s, i, cl)
    ensures In(cl, s[k])
    decreases k - i
  {
    if i < k {
      RunEndInRun(s, i + 1, cl, k);
    }
  }

  /** A position at or before the run end whose character is not in the
      class (or that is the end) is the run end. */
  lemma {:induction false} RunEndAt(s: string, i: nat, cl: Class, k: nat)
    requires i <= |s| && i <= k <= RunEnd(s, i, cl)
    requires k < |s| ==> !In(cl, s[k])
    ensures RunEnd(s, i, cl) == k
    decreases k - i
  {
    if i < k {
      RunEndAt(s, i + 1, cl, k);
    }
  }

  /** The run end is determined by its two defining properties. */
  lemma {:induction false} RunEndUnique(s: string, i: nat, cl: Class, j: nat)
    requires i <= j <= |s|
    requires forall k | i <= k < j :: In(cl, s[k])
    requires j < |s| ==> !In(cl, s[j])
    ensures RunEnd(s, i, cl) == j
    decreases j - i
  {
    if i < j {
      RunEndUnique(s, i + 1, cl, j);
    }
  }

  /** The number of '\n' characters in s[i..j]. */
  function Newlines(s: string, i: nat, j: nat): (n: nat)
    requires i <= j <= |s|
    ensures n <= j - i
    decreases j - i
  {
    if i == j then 0
    else Newlines(s, i, j - 1) + (if s[j - 1] == '\n' then 1 else 0)
  }

  lemma {:induction false} NewlinesNone(s: string, i: nat, j: nat)
    requires i <= j <= |s|
    requires forall k | i <= k < j :: s[k] != '\n'
    ensures Newlines(s, i, j) == 0
    decreases j - i
  {
    if i < j {
      NewlinesNone(s, i, j - 1);
    }
  }

  /** Extending s[i..j] by the character at j adds one exactly when it is '\n'. */
  lemma NewlinesExtend(s: string, i: nat, j: nat)
    requires i <= j < |s|
    ensures Newlines(s, i, j + 1) == Newlines(s, i, j) + (if s[j] == '\n' then 1 else 0)
  {
  }

  /** Counting over s[i..k] in two pieces split at j. */
  lemma {:induction false} NewlinesSplit(s: string, i: nat, j: nat, k: nat)
    requires i <= j <= k <= |s|
    ensures Newlines(s, i, k) == Newlines(s, i, j) + Newlines(s, j, k)
    decreases k - j
  {
    if j < k {
      NewlinesSplit(s, i, j, k - 1);
    }
  }

  /** The whole run is in the class. */
  lemma RunEndAll(s: string, i: nat, cl: Class)
    requires i <= |s|
    ensures forall k | i <= k < RunEnd(s, i, cl) :: In(cl, s[k])
  {
    forall k | i <= k < RunEnd(s, i, cl)
      ensures In(cl, s[k])
    {
      RunEndInRun(s, i, cl, k);
    }
  }

  /** A run of a class that excludes '\n' (any but Unquoted and Breaks)
      holds no newline. */
  lemma NewlinesInRun(s: string, i: nat, cl: Class)
    requires i <= |s| && cl != Unquoted && cl != Breaks
    ensures Newlines(s, i, RunEnd(s, i, cl)) == 0
  {
    RunEndAll(s, i, cl);
    NewlinesNone(s, i, RunEnd(s, i, cl));
  }
}
