/**
 * The rewrite Init applies to the GITHUB_APP_PEM_FILE value with Go's
 * strings.Replace and no replacement limit: every literal two-character
 * sequence backslash, `n` becomes one line break, scanning left to right
 * without overlap.
 */
module Escapes {

  const Backslash: char := '\\'
  const Newline: char := '\n'

  /** A literal backslash followed by the letter n starts at index i of s. */
  predicate EscapeAt(s: string, i: int) {
    0 <= i && i + 1 < |s| && s[i] == Backslash && s[i + 1] == 'n'
  }

  /** s contains the two-character sequence backslash, n somewhere. */
  predicate HasEscape(s: string) {
    exists i | 0 <= i < |s| :: EscapeAt(s, i)
  }

  /**
   * The leftmost occurrence is replaced first and the scan resumes after
   * it, so occurrences never overlap.
   */
  function Unescape(s: string): (r: string)
    ensures |r| <= |s|
  {
    if s == [] then []
    else if EscapeAt(s, 0) then [Newline] + Unescape(s[2..])
    else [s[0]] + Unescape(s[1..])
  }

  /**
   * The single-line `\n` form of a multi-line key: every line break
   * becomes backslash, n. Unescape undoes it (UnescapeEscape).
   */
  function Escape(t: string): (r: string)
    ensures |r| >= |t|
  {
    if t == [] then []
    else (if t[0] == Newline then [Backslash, 'n'] else [t[0]]) + Escape(t[1..])
  }

  /** The first character of Unescape(s) is an `n` only when s starts with one. */
  lemma UnescapeHead(s: string)
    requires s != []
    ensures Unescape(s) != [] && (Unescape(s)[0] == 'n' ==> s[0] == 'n')
  {
  }

  /** After the rewrite no backslash-n pair is left in the value. */
  lemma {:induction false} UnescapeLeavesNoEscape(s: string)
    ensures !HasEscape(Unescape(s))
  {
    if s == [] {
    } else if EscapeAt(s, 0) {
      var rest := Unescape(s[2..]);
      UnescapeLeavesNoEscape(s[2..]);
      forall i ensures !EscapeAt([Newline] + rest, i) {
        if EscapeAt([Newline] + rest, i) {
          assert i > 0;
          assert EscapeAt(rest, i - 1);
        }
      }
    } else {
      var rest := Unescape(s[1..]);
      UnescapeLeavesNoEscape(s[1..]);
      forall i ensures !EscapeAt([s[0]] + rest, i) {
        if EscapeAt([s[0]] + rest, i) {
          if i == 0 {
            UnescapeHead(s[1..]);
          } else {
            assert EscapeAt(rest, i - 1);
          }
        }
      }
    }
  }

  /** A value without any backslash is stored exactly as given. */
  lemma {:induction false} UnescapeWithoutBackslash(s: string)
    requires Backslash !in s
    ensures Unescape(s) == s
  {
    if s != [] {
      assert s[1..] + [] == s[1..];
      assert forall c :: c in s[1..] ==> c in s;
      UnescapeWithoutBackslash(s[1..]);
      assert [s[0]] + s[1..] == s;
    }
  }

  /** The rewrite never makes a non-empty value empty. */
  lemma UnescapeEmpty(s: string)
    ensures Unescape(s) == [] <==> s == []
  {
  }

  /**
   * Unescape undoes Escape for every text that does not itself contain a
   * literal backslash-n pair (a PEM key never does): a key exported with
   * escaped line breaks is restored exactly.
   */
  lemma {:induction false} UnescapeEscape(t: string)
    requires !HasEscape(t)
    ensures Unescape(Escape(t)) == t
  {
    if t != [] {
      var rest := t[1..];
      assert !HasEscape(rest) by {
        forall i | EscapeAt(rest, i) ensures EscapeAt(t, i + 1) { }
      }
      UnescapeEscape(rest);
      var e := Escape(rest);
      if t[0] == Newline {
        assert Escape(t) == [Backslash, 'n'] + e;
        assert ([Backslash, 'n'] + e)[2..] == e;
      } else {
        assert Escape(t) == [t[0]] + e;
        assert ([t[0]] + e)[1..] == e;
        if t[0] == Backslash && e != [] {
          assert !EscapeAt(t, 0);
          assert rest[0] != 'n';
          assert e[0] != 'n';
        }
      }
      assert [t[0]] + rest == t;
    }
  }
}
