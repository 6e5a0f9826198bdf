/**
 * Normalisation of the service-account private key: every two-character
 * sequence backslash, `n` is rewritten, left to right and without overlap,
 * into a newline character.
 */
module PrivateKey {

  /** A backslash immediately followed by `n` starts at position `i`. */
  predicate EscapeAt(s: string, i: nat)
    requires i + 1 < |s|
  {
    s[i] == '\\' && s[i + 1] == 'n'
  }

  /** No backslash of `s` is immediately followed by `n`. */
  predicate NoEscapedNewline(s: string) {
    forall i :: 0 <= i < |s| - 1 ==> !EscapeAt(s, i)
  }

  function NormalizeKey(s: string): string
    decreases |s|
  {
    if |s| >= 2 && s[0] == '\\' && s[1] == 'n' then "\n" + NormalizeKey(s[2..])
    else if s == [] then []
    else [s[0]] + NormalizeKey(s[1..])
  }

  /** The rewrite never makes the key longer, keeps it empty exactly when it was, and keeps a leading `n` exactly where the input had one. */
  lemma {:induction false} NormalizeKeyHead(s: string)
    ensures |NormalizeKey(s)| <= |s|
    ensures (|NormalizeKey(s)| == 0) == (|s| == 0)
    ensures |s| > 0 ==> (NormalizeKey(s)[0] == 'n' <==> s[0] == 'n')
  {
    if |s| >= 2 && s[0] == '\\' && s[1] == 'n' {
      NormalizeKeyHead(s[2..]);
    } else if s != [] {
      NormalizeKeyHead(s[1..]);
    }
  }

  /** No backslash-`n` pair survives the rewrite. */
  lemma {:induction false} NormalizeKeyClean(s: string)
    ensures NoEscapedNewline(NormalizeKey(s))
  {
    if |s| >= 2 && s[0] == '\\' && s[1] == 'n' {
      NormalizeKeyClean(s[2..]);
      var r, t := NormalizeKey(s), NormalizeKey(s[2..]);
      assert r == "\n" + t;
      forall i | 0 <= i < |r| - 1 ensures !EscapeAt(r, i) {
        if i > 0 {
          assert r[i] == t[i - 1] && r[i + 1] == t[i];
          assert !EscapeAt(t, i - 1);
        }
      }
    } else if s != [] {
      NormalizeKeyClean(s[1..]);
      NormalizeKeyHead(s[1..]);
      var r, t := NormalizeKey(s), NormalizeKey(s[1..]);
      assert r == [s[0]] + t;
      forall i | 0 <= i < |r| - 1 ensures !EscapeAt(r, i) {
        if i > 0 {
          assert r[i] == t[i - 1] && r[i + 1] == t[i];
          assert !EscapeAt(t, i - 1);
        } else if s[0] == '\\' {
          assert |s| >= 2 && s[1] != 'n';
          assert r[1] == t[0];
        }
      }
    }
  }

  /** A key without backslash-`n` pairs is left as it is. */
  lemma {:induction false} NormalizeKeyFixed(s: string)
    requires NoEscapedNewline(s)
    ensures NormalizeKey(s) == s
  {
    if s != [] {
      if |s| >= 2 {
        assert !EscapeAt(s, 0);
      }
      var t := s[1..];
      assert NoEscapedNewline(t) by {
        forall i | 0 <= i < |t| - 1 ensures !EscapeAt(t, i) {
          assert !EscapeAt(s, i + 1);
        }
      }
      NormalizeKeyFixed(t);
      assert [s[0]] + s[1..] == s;
    }
  }

  /** Normalising twice is normalising once. */
  lemma {:induction false} NormalizeKeyIdempotent(s: string)
    ensures NormalizeKey(NormalizeKey(s)) == NormalizeKey(s)
  {
    NormalizeKeyClean(s);
    NormalizeKeyFixed(NormalizeKey(s));
  }

  /** A key with no backslash at all is returned unchanged. */
  lemma {:induction false} NormalizeKeyNoBackslash(s: string)
    requires '\\' !in s
    ensures NormalizeKey(s) == s
  {
    assert NoEscapedNewline(s) by {
      forall i | 0 <= i < |s| - 1 ensures !EscapeAt(s, i) {
        assert s[i] in s;
      }
    }
    NormalizeKeyFixed(s);
  }

  /** Each backslash-`n` pair becomes one newline character, and the text on either side is rewritten on its own. */
  lemma {:induction false} NormalizeKeyPair(a: string, b: string)
    ensures NormalizeKey(a + "\\n" + b) == NormalizeKey(a) + "\n" + NormalizeKey(b)
    decreases |a|
  {
    var s := a + "\\n" + b;
    if a == [] {
      assert s == "\\n" + b && s[2..] == b;
    } else if |a| >= 2 && a[0] == '\\' && a[1] == 'n' {
      NormalizeKeyPair(a[2..], b);
      assert s[2..] == a[2..] + "\\n" + b;
    } else {
      NormalizeKeyPair(a[1..], b);
      assert s[1..] == a[1..] + "\\n" + b;
      if |a| == 1 && a[0] == '\\' {
        assert s[1] == '\\';
      }
    }
  }

  /** How a hosting platform stores a multi-line key: every newline written as backslash, `n`. */
  function EscapeNewlines(s: string): string {
    if s == [] then [] else (if s[0] == '\n' then "\\n" else [s[0]]) + EscapeNewlines(s[1..])
  }

  /** Normalising a key stored that way gives back the original key, when it holds no backslash. */
  lemma {:induction false} NormalizeKeyRestores(s: string)
    requires '\\' !in s
    ensures NormalizeKey(EscapeNewlines(s)) == s
  {
    if s != [] {
      assert forall c :: c in s[1..] ==> c in s;
      NormalizeKeyRestores(s[1..]);
      var t := EscapeNewlines(s[1..]);
      if s[0] == '\n' {
        assert EscapeNewlines(s) == "\\n" + t;
        assert EscapeNewlines(s)[2..] == t;
      } else {
        assert s[0] in s;
        assert EscapeNewlines(s) == [s[0]] + t;
        assert EscapeNewlines(s)[1..] == t;
      }
      assert [s[0]] + s[1..] == s;
    }
  }
}
