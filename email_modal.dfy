/**
 * The e-mail dialog that sends a report (frontend/src/components/shared/EmailModal.tsx): the
 * address check `/^[^\s@]+@[^\s@]+\.[^\s@]+$/`, and the submit and edit handlers over the
 * `email` and `error` state.
 */
module EmailModal {
  import opened Text

  // ---------------------------------------------------------------- the pattern

  /** `[^\s@]`. */
  predicate TokenChar(c: char) {
    !IsWhitespace(c) && c != '@'
  }

  /** `[^\s@]+`. */
  predicate Token(s: string) {
    |s| > 0 && forall k | 0 <= k < |s| :: TokenChar(s[k])
  }

  /** The pattern matched with `@` at `i` and the `.` at `j`: a token before each and one after the dot. */
  predicate MatchesAt(s: string, i: int, j: int) {
    && 0 < i < j < |s| - 1
    && s[i] == '@' && s[j] == '.'
    && Token(s[..i]) && Token(s[i + 1..j]) && Token(s[j + 1..])
  }

  /** `re.test(s)`: some way of splitting `s` matches the pattern. */
  ghost predicate MatchesPattern(s: string) {
    exists i, j :: MatchesAt(s, i, j)
  }

  // ---------------------------------------------------------------- the check

  /** The first position of `c` in `s`, or `|s|` when it does not occur. */
  function FirstIndex(s: string, c: char): (r: nat)
    ensures r <= |s|
    ensures r < |s| ==> s[r] == c
    ensures forall k | 0 <= k < r :: s[k] != c
  {
    if s == [] then 0 else if s[0] == c then 0 else 1 + FirstIndex(s[1..], c)
  }

  /** A `c` at `i` with none before it is the first. */
  lemma FirstIndexAt(s: string, c: char, i: nat)
    requires i < |s| && s[i] == c
    requires forall k | 0 <= k < i :: s[k] != c
    ensures FirstIndex(s, c) == i
  {
  }

  /** Some `.` of `d` has a character on each side. */
  predicate HasInnerDot(d: string) {
    exists j | 0 < j < |d| - 1 :: d[j] == '.'
  }

  /**
   * `validateEmail`: no whitespace, exactly one `@`, something before it, and after it a `.`
   * with something on each side.
   */
  predicate ValidateEmail(s: string) {
    var at := FirstIndex(s, '@');
    && 0 < at < |s|
    && (forall k | 0 <= k < |s| :: !IsWhitespace(s[k]) && (s[k] == '@' ==> k == at))
    && HasInnerDot(s[at + 1..])
  }

  /** The check accepts exactly the strings the pattern matches. */
  lemma ValidateEmailSpec(s: string)
    ensures ValidateEmail(s) <==> MatchesPattern(s)
  {
    if ValidateEmail(s) {
      var at := FirstIndex(s, '@');
      var d := s[at + 1..];
      var jj :| 0 < jj < |d| - 1 && d[jj] == '.';
      var j := at + 1 + jj;
      assert s[j] == '.';
      assert Token(s[..at]) by {
        forall k | 0 <= k < at ensures TokenChar(s[..at][k]) {
          assert s[..at][k] == s[k];
        }
      }
      var mid, tail := s[at + 1..j], s[j + 1..];
      assert Token(mid) by {
        forall k | 0 <= k < |mid| ensures TokenChar(mid[k]) {
          assert mid[k] == s[at + 1 + k];
        }
      }
      assert Token(tail) by {
        forall k | 0 <= k < |tail| ensures TokenChar(tail[k]) {
          assert tail[k] == s[j + 1 + k];
        }
      }
      assert MatchesAt(s, at, j);
    }
    if MatchesPattern(s) {
      var i, j :| MatchesAt(s, i, j);
      MatchesAtChars(s, i, j);
      assert FirstIndex(s, '@') == i;
      var d := s[i + 1..];
      assert d[j - i - 1] == '.';
    }
  }

  /** In a match, every character but the `@` at `i` is a token character. */
  lemma MatchesAtChars(s: string, i: int, j: int)
    requires MatchesAt(s, i, j)
    ensures forall k | 0 <= k < |s| && k != i :: TokenChar(s[k])
  {
    forall k | 0 <= k < |s| && k != i ensures TokenChar(s[k]) {
      if k < i {
        assert s[..i][k] == s[k];
      } else if k < j {
        assert s[i + 1..j][k - i - 1] == s[k];
      } else if k > j {
        assert s[j + 1..][k - j - 1] == s[k];
      }
    }
  }

  /** The shortest kind of valid address: one character on each side of the `@` and of the dot. */
  lemma ShortestAddressIsValid()
    ensures ValidateEmail("a@b.c")
  {
    var s := "a@b.c";
    FirstIndexAt(s, '@', 1);
    assert s[2..][1] == '.';
  }

  /** An address whose part after the `@` has no dot, such as "ejemplo@correo", is not. */
  lemma NoDotIsInvalid(name: string, domain: string)
    requires '@' !in name && '.' !in domain
    ensures !ValidateEmail(name + "@" + domain)
  {
    var v := name + "@" + domain;
    var at := |name|;
    assert v[at] == '@';
    forall k | 0 <= k < at ensures v[k] != '@' {
      assert v[k] == name[k];
    }
    FirstIndexAt(v, '@', at);
    forall k | at < k < |v| ensures v[k] != '.' {
      assert v[k] == domain[k - at - 1];
    }
    NoDotAfterAt(v);
  }

  /** With no `.` after the first `@`, the check fails. */
  lemma NoDotAfterAt(s: string)
    requires forall k | FirstIndex(s, '@') < k < |s| :: s[k] != '.'
    ensures !ValidateEmail(s)
  {
    var at := FirstIndex(s, '@');
    if at < |s| {
      var d := s[at + 1..];
      forall j | 0 < j < |d| - 1 ensures d[j] != '.' {
        assert d[j] == s[at + 1 + j];
      }
    }
  }

  /** Nor is one with a space in it. */
  lemma SpaceIsInvalid()
    ensures !ValidateEmail("a b@c.d")
  {
    var t := "a b@c.d";
    assert IsWhitespace(t[1]);
  }

  // ---------------------------------------------------------------- the dialog state

  const EMPTY_MESSAGE := "Por favor ingresa un correo electrónico"
  const INVALID_MESSAGE := "Por favor ingresa un correo electrónico válido"

  class Dialog {
    var email: string
    var error: string
    /** The arguments of the calls made to `onSend`, in order. */
    var sent: seq<string>

    /** `onSend` has only ever been given valid addresses. */
    predicate Valid()
      reads this
    {
      forall k | 0 <= k < |sent| :: ValidateEmail(sent[k])
    }

    constructor()
      ensures email == "" && error == "" && sent == []
      ensures Valid()
    {
      email, error, sent := "", "", [];
    }

    /** `handleSubmit`. */
    method HandleSubmit()
      modifies this
      ensures email == old(email)
      ensures old(email) == "" ==> error == EMPTY_MESSAGE && sent == old(sent)
      ensures old(email) != "" && !ValidateEmail(old(email)) ==> error == INVALID_MESSAGE && sent == old(sent)
      ensures ValidateEmail(old(email)) ==> error == "" && sent == old(sent) + [old(email)]
      ensures old(Valid()) ==> Valid()
    {
      if email == "" {
        error := EMPTY_MESSAGE;
        return;
      }
      if !ValidateEmail(email) {
        error := INVALID_MESSAGE;
        return;
      }
      error := "";
      sent := sent + [email];
    }

    /** The input's `onChange`: the new text, and no error. */
    method Edit(value: string)
      modifies this
      ensures email == value && error == "" && sent == old(sent)
    {
      email := value;
      error := "";
    }
  }

  /** The empty address is not valid, so the first check is the only one that fires on it. */
  lemma EmptyIsInvalid()
    ensures !ValidateEmail("")
  {
  }
}
