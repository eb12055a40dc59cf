/** The string side of the adapter: the identifier sanitiser (`cleanString`), PHP's
    `explode('--', ...)`, and the parse half of the external-id pair
    (`getIdFromExternalId`). */
module Identifiers {
  import opened PhpValues

  // ---------------------------------------------------------------------------
  // cleanString: preg_replace('/[^a-zA-Z0-9\-]+/', '', $string)
  // ---------------------------------------------------------------------------

  /** A character the sanitiser keeps: a letter, a digit or a dash. */
  predicate IsIdChar(c: char) {
    ('a' <= c <= 'z') || ('A' <= c <= 'Z') || ('0' <= c <= '9') || c == '-'
  }

  predicate IsIdString(s: string) {
    forall i :: 0 <= i < |s| ==> IsIdChar(s[i])
  }

  /** Letters and digits only: no dash either. */
  predicate IsAlnumString(s: string) {
    forall i :: 0 <= i < |s| ==> IsIdChar(s[i]) && s[i] != '-'
  }

  /** Removes every character outside [A-Za-z0-9-]. */
  function Clean(s: string): (r: string)
    ensures IsIdString(r)
    ensures |r| <= |s|
  {
    if s == [] then []
    else if IsIdChar(s[0]) then [s[0]] + Clean(s[1..])
    else Clean(s[1..])
  }

  /** `t` is `s` with some characters deleted. */
  predicate IsSubsequence(t: string, s: string)
    decreases |s|
  {
    if t == [] then true
    else if s == [] then false
    else if t[0] == s[0] then IsSubsequence(t[1..], s[1..])
    else IsSubsequence(t, s[1..])
  }

  lemma {:induction false} CleanIsSubsequence(s: string)
    ensures IsSubsequence(Clean(s), s)
  {
    if s != [] {
      CleanIsSubsequence(s[1..]);
      if IsIdChar(s[0]) {
        assert Clean(s)[1..] == Clean(s[1..]);
      }
    }
  }

  /** Every character of [A-Za-z0-9-] survives as often as it occurs; every other
      character disappears. With CleanIsSubsequence this pins Clean down completely. */
  lemma {:induction false} CleanKeepsIdChars(s: string, c: char)
    ensures multiset(Clean(s))[c] == if IsIdChar(c) then multiset(s)[c] else 0
  {
    if s != [] {
      CleanKeepsIdChars(s[1..], c);
      assert s == [s[0]] + s[1..];
      assert multiset(s) == multiset([s[0]]) + multiset(s[1..]);
      if IsIdChar(s[0]) {
        assert multiset(Clean(s)) == multiset([s[0]]) + multiset(Clean(s[1..]));
      }
    }
  }

  /** The sanitiser leaves a string alone exactly when it is already over [A-Za-z0-9-]. */
  lemma {:induction false} CleanFixesIdStrings(s: string)
    ensures Clean(s) == s <==> IsIdString(s)
  {
    if s != [] && IsIdString(s) {
      assert IsIdString(s[1..]) by {
        forall i | 0 <= i < |s[1..]| ensures IsIdChar(s[1..][i]) {
          assert s[1..][i] == s[i + 1];
        }
      }
      CleanFixesIdStrings(s[1..]);
      assert Clean(s) == [s[0]] + s[1..];
    }
  }

  lemma {:induction false} CleanIdempotent(s: string)
    ensures Clean(Clean(s)) == Clean(s)
  {
    CleanFixesIdStrings(Clean(s));
  }

  lemma IdStringConcat(a: string, b: string)
    requires IsIdString(a) && IsIdString(b)
    ensures IsIdString(a + b)
  {
  }

  // ---------------------------------------------------------------------------
  // explode('--', $s) and its inverse
  // ---------------------------------------------------------------------------

  /** `s` contains the separator "--". */
  predicate HasSeparator(s: string) {
    |s| >= 2 && ((s[0] == '-' && s[1] == '-') || HasSeparator(s[1..]))
  }

  predicate EndsWithDash(s: string) {
    |s| > 0 && s[|s| - 1] == '-'
  }

  /** PHP's `explode('--', s)`: the pieces between the occurrences of "--" found
      scanning from the left, each occurrence consumed whole. "" gives [""]. */
  function Explode(s: string): (pieces: seq<string>)
    ensures |pieces| >= 1
    decreases |s|
  {
    if |s| < 2 then [s]
    else if s[0] == '-' && s[1] == '-' then [""] + Explode(s[2..])
    else
      var rest := Explode(s[1..]);
      [[s[0]] + rest[0]] + rest[1..]
  }

  /** `implode('--', pieces)`, the inverse of Explode. */
  function Implode(pieces: seq<string>): string
    requires |pieces| >= 1
    decreases |pieces|
  {
    if |pieces| == 1 then pieces[0] else pieces[0] + "--" + Implode(pieces[1..])
  }

  /** The piece lists Explode can return: no piece contains "--", and no piece but
      the last ends with a dash (that dash would have begun the separator). */
  predicate Separable(pieces: seq<string>) {
    && |pieces| >= 1
    && (forall i :: 0 <= i < |pieces| ==> !HasSeparator(pieces[i]))
    && (forall i :: 0 <= i < |pieces| - 1 ==> !EndsWithDash(pieces[i]))
  }

  lemma {:induction false} ExplodeUnseparated(s: string)
    requires !HasSeparator(s)
    ensures Explode(s) == [s]
    decreases |s|
  {
    if |s| >= 2 {
      ExplodeUnseparated(s[1..]);
      assert [s[0]] + s[1..] == s;
    }
  }

  /** Joining at a separator that cannot merge with the left part splits back there. */
  lemma {:induction false} ExplodeJoin(p: string, q: string)
    requires !EndsWithDash(p)
    ensures Explode(p + "--" + q) == Explode(p) + Explode(q)
    decreases |p|
  {
    var s := p + "--" + q;
    if |p| == 0 {
      assert s == "--" + q;
      assert s[2..] == q;
    } else if |p| >= 2 && p[0] == '-' && p[1] == '-' {
      ExplodeJoinAtSeparator(p, q);
    } else if |p| == 1 {
      ExplodeJoinAtChar(p, q);
    } else {
      ExplodeJoinAtPiece(p, q);
    }
  }

  lemma {:induction false} ExplodeJoinAtSeparator(p: string, q: string)
    requires !EndsWithDash(p) && |p| >= 2 && p[0] == '-' && p[1] == '-'
    ensures Explode(p + "--" + q) == Explode(p) + Explode(q)
    decreases |p|, 0
  {
    var s := p + "--" + q;
    assert s[0] == '-' && s[1] == '-';
    assert s[2..] == p[2..] + "--" + q;
    assert !EndsWithDash(p[2..]) by {
      if |p[2..]| > 0 {
        assert p[2..][|p[2..]| - 1] == p[|p| - 1];
      }
    }
    ExplodeJoin(p[2..], q);
    assert Explode(s) == [""] + Explode(s[2..]);
    assert Explode(p) == [""] + Explode(p[2..]);
  }

  lemma ExplodeJoinAtChar(p: string, q: string)
    requires !EndsWithDash(p) && |p| == 1
    ensures Explode(p + "--" + q) == Explode(p) + Explode(q)
  {
    var s := p + "--" + q;
    assert s[0] == p[0] && s[0] != '-';
    assert s[1..] == "--" + q;
    assert s[1..][2..] == q;
    var rest := Explode(s[1..]);
    assert rest == [""] + Explode(q);
    assert Explode(s) == [[s[0]] + rest[0]] + rest[1..];
    assert [s[0]] + rest[0] == p;
  }

  lemma {:induction false} ExplodeJoinAtPiece(p: string, q: string)
    requires !EndsWithDash(p) && |p| >= 2 && !(p[0] == '-' && p[1] == '-')
    ensures Explode(p + "--" + q) == Explode(p) + Explode(q)
    decreases |p|, 0
  {
    var s := p + "--" + q;
    var rest := Explode(s[1..]);
    var restP := Explode(p[1..]);
    assert rest == restP + Explode(q) by {
      assert s[1..] == p[1..] + "--" + q;
      assert p[1..][|p[1..]| - 1] == p[|p| - 1];
      ExplodeJoin(p[1..], q);
    }
    assert Explode(s) == [[p[0]] + rest[0]] + rest[1..] by {
      assert s[0] == p[0] && s[1] == p[1];
    }
    assert rest[1..] == restP[1..] + Explode(q);
  }

  lemma {:induction false} ImplodeExplode(s: string)
    ensures Implode(Explode(s)) == s
    decreases |s|
  {
    if |s| >= 2 {
      if s[0] == '-' && s[1] == '-' {
        ImplodeExplode(s[2..]);
        assert ([""] + Explode(s[2..]))[1..] == Explode(s[2..]);
        assert "" + "--" + s[2..] == s;
      } else {
        var rest := Explode(s[1..]);
        ImplodeExplode(s[1..]);
        var pieces := [[s[0]] + rest[0]] + rest[1..];
        if |rest| == 1 {
          assert [s[0]] + s[1..] == s;
        } else {
          assert pieces[1..] == rest[1..];
          assert Implode(rest) == rest[0] + "--" + Implode(rest[1..]);
          assert [s[0]] + rest[0] + "--" + Implode(rest[1..]) == [s[0]] + s[1..];
          assert [s[0]] + s[1..] == s;
        }
      }
    }
  }

  lemma {:induction false} ExplodeImplode(pieces: seq<string>)
    requires Separable(pieces)
    ensures Explode(Implode(pieces)) == pieces
    decreases |pieces|
  {
    if |pieces| == 1 {
      ExplodeUnseparated(pieces[0]);
    } else {
      assert Separable(pieces[1..]) by {
        forall i | 0 <= i < |pieces[1..]| ensures !HasSeparator(pieces[1..][i]) {
          assert pieces[1..][i] == pieces[i + 1];
        }
        forall i | 0 <= i < |pieces[1..]| - 1 ensures !EndsWithDash(pieces[1..][i]) {
          assert pieces[1..][i] == pieces[i + 1];
        }
      }
      ExplodeImplode(pieces[1..]);
      ExplodeJoin(pieces[0], Implode(pieces[1..]));
      ExplodeUnseparated(pieces[0]);
      assert [pieces[0]] + pieces[1..] == pieces;
    }
  }

  /** The first piece of explode is a prefix of the input. */
  lemma FirstPieceIsPrefix(s: string)
    ensures Explode(s)[0] <= s
  {
  }

  lemma {:induction false} NoSeparatorAfterChar(c: char, x: string)
    requires !HasSeparator(x)
    requires x != [] ==> !(c == '-' && x[0] == '-')
    ensures !HasSeparator([c] + x)
  {
  }

  /** Explode only ever returns Separable lists: with ExplodeImplode and
      ImplodeExplode, Explode and Implode are inverse bijections. */
  lemma {:induction false} ExplodeSeparable(s: string)
    ensures Separable(Explode(s))
    decreases |s|
  {
    var pieces := Explode(s);
    if |s| < 2 {
      assert !HasSeparator(s);
    } else if s[0] == '-' && s[1] == '-' {
      ExplodeSeparable(s[2..]);
      var rest := Explode(s[2..]);
      assert pieces == [""] + rest;
      forall i | 0 <= i < |pieces| ensures !HasSeparator(pieces[i]) {
        if i > 0 { assert pieces[i] == rest[i - 1]; }
      }
      forall i | 0 <= i < |pieces| - 1 ensures !EndsWithDash(pieces[i]) {
        if i > 0 { assert pieces[i] == rest[i - 1]; }
      }
    } else {
      ExplodeSeparable(s[1..]);
      var rest := Explode(s[1..]);
      FirstPieceIsPrefix(s[1..]);
      ImplodeExplode(s[1..]);
      var head := [s[0]] + rest[0];
      assert pieces == [head] + rest[1..];
      assert rest[0] != [] ==> rest[0][0] == s[1];
      NoSeparatorAfterChar(s[0], rest[0]);
      if |rest| > 1 {
        assert !EndsWithDash(rest[0]);
        if rest[0] == [] {
          assert s[1..] == "" + "--" + Implode(rest[1..]);
          assert s[1] == '-';
        } else {
          assert head[|head| - 1] == rest[0][|rest[0]| - 1];
        }
      }
      forall i | 0 <= i < |pieces| ensures !HasSeparator(pieces[i]) {
        if i > 0 { assert pieces[i] == rest[i]; }
      }
      forall i | 0 <= i < |pieces| - 1 ensures !EndsWithDash(pieces[i]) {
        if i > 0 { assert pieces[i] == rest[i]; }
      }
    }
  }

  // ---------------------------------------------------------------------------
  // getIdFromExternalId
  // ---------------------------------------------------------------------------

  /** `getIdFromExternalId`: split on "--"; when the first piece is "skype", the last
      of the remaining pieces, or false when none remain (PHP's `end` on an empty
      array); otherwise null. */
  function IdFromExternalId(externalId: string): Value {
    var pieces := Explode(externalId);
    if pieces[0] == "skype" then
      if |pieces| > 1 then Str(pieces[|pieces| - 1]) else Bool(false)
    else Null
  }

  /** null exactly when the id neither is "skype" nor starts with "skype--". */
  lemma {:induction false} IdFromExternalIdNullIff(externalId: string)
    ensures IdFromExternalId(externalId).Null? <==>
              !(externalId == "skype" || (|externalId| >= 7 && externalId[..7] == "skype--"))
  {
    var pieces := Explode(externalId);
    ExplodeUnseparated("skype");
    if externalId == "skype" {
    } else if |externalId| >= 7 && externalId[..7] == "skype--" {
      assert externalId == "skype" + "--" + externalId[7..];
      ExplodeJoin("skype", externalId[7..]);
    } else if pieces[0] == "skype" {
      ImplodeExplode(externalId);
      assert false;
    }
  }

  lemma IdFromExternalIdEdgeCases()
    ensures IdFromExternalId("") == Null
    ensures IdFromExternalId("skype") == Bool(false)
  {
  }

  /** The id handed back never contains the separator. */
  lemma {:induction false} IdFromExternalIdHasNoSeparator(externalId: string)
    ensures IdFromExternalId(externalId).Str? ==> !HasSeparator(IdFromExternalId(externalId).s)
  {
    ExplodeSeparable(externalId);
  }

  /** The parse half of the external-id round trip: the id after the second
      separator comes back whole when the middle part cannot merge with that
      separator and the id has no separator of its own. */
  lemma {:induction false} ComposedIdRoundTrip(conversation: string, user: string)
    requires !EndsWithDash(conversation)
    requires !HasSeparator(user)
    ensures IdFromExternalId("skype--" + conversation + "--" + user) == Str(user)
  {
    var tail := conversation + "--" + user;
    assert "skype--" + conversation + "--" + user == "skype" + "--" + tail;
    ExplodeJoin("skype", tail);
    ExplodeJoin(conversation, user);
    ExplodeUnseparated("skype");
    ExplodeUnseparated(user);
  }

  /** Without the first condition: a conversation part ending in a dash moves the
      split one character left, so "a-" and "b" give back "-b". */
  lemma TrailingDashBreaksRoundTrip()
    ensures IdFromExternalId("skype--" + "a-" + "--" + "b") == Str("-b")
  {
    assert "skype--" + "a-" + "--" + "b" == "skype" + "--" + ("a" + "--" + "-b");
    ExplodeJoin("skype", "a" + "--" + "-b");
    ExplodeJoin("a", "-b");
    ExplodeUnseparated("skype");
    ExplodeUnseparated("a");
    ExplodeUnseparated("-b");
  }

  /** Without the second condition: only the id's last piece comes back. */
  lemma InnerSeparatorBreaksRoundTrip()
    ensures IdFromExternalId("skype--" + "c" + "--" + "x--y") == Str("y")
  {
    assert "skype--" + "c" + "--" + "x--y" == "skype" + "--" + ("c" + "--" + ("x" + "--" + "y"));
    ExplodeJoin("skype", "c" + "--" + ("x" + "--" + "y"));
    ExplodeJoin("c", "x" + "--" + "y");
    ExplodeJoin("x", "y");
    ExplodeUnseparated("skype");
    ExplodeUnseparated("c");
    ExplodeUnseparated("x");
    ExplodeUnseparated("y");
  }
}
