/**
 * Cleaning the generated text before it is parsed as JSON (src/App.jsx,
 * `handleReview`): the payload is trimmed and, when it starts with a
 * triple-backtick marker, every marker is deleted.
 *
 * The deletion is a global regular-expression replace, not an unwrapping of a
 * fenced code block: markers are removed wherever they stand, including inside
 * JSON string values, and a fence that does not open the payload is left alone.
 */
module Fences {
  import opened Strings

  /** The bare fence marker. */
  const Fence: string := "```"

  /** The fence marker with the `json` info string. */
  const JsonFence: string := "```json"

  /** No backtick anywhere in `s`. */
  predicate NoBacktick(s: string) {
    forall i :: 0 <= i < |s| ==> s[i] != '`'
  }

  /**
   * `s.replace(/m\n?/g, '')` for a literal marker `m`: scan from the left;
   * where `m` starts, delete it together with one line feed right after it
   * (the `\n?` is greedy), then go on after the deleted text; elsewhere keep
   * the character and move one position on.
   */
  function RemoveMarkers(s: string, m: string): (r: string)
    requires m != []
    ensures |r| <= |s|
    ensures !Occurs(m, s) ==> r == s
    decreases |s|
  {
    if s == [] then []
    else if StartsWith(s, m) then
      var rest := s[|m|..];
      if rest != [] && rest[0] == '\n' then RemoveMarkers(rest[1..], m) else RemoveMarkers(rest, m)
    else [s[0]] + RemoveMarkers(s[1..], m)
  }

  /**
   * The marker removal applied to the trimmed payload `t`: both passes when it
   * opens with "```json", the bare-marker pass when it opens with "```", and
   * nothing otherwise.
   */
  function Unfence(t: string): (r: string)
    ensures |r| <= |t|
    ensures !StartsWith(t, Fence) ==> r == t
  {
    if StartsWith(t, JsonFence) then RemoveMarkers(RemoveMarkers(t, JsonFence), Fence)
    else if StartsWith(t, Fence) then RemoveMarkers(t, Fence)
    else t
  }

  /** The text handed to `JSON.parse` for the generated payload `payload`. */
  function CleanResponse(payload: string): (r: string)
    ensures |r| <= |payload|
    ensures !StartsWith(Trim(payload), Fence) ==> r == Trim(payload)
  {
    Unfence(Trim(payload))
  }

  /** Removing markers only deletes characters. */
  lemma {:induction false} RemovalOnlyDeletes(s: string, m: string)
    requires m != []
    ensures IsSubsequence(RemoveMarkers(s, m), s)
    ensures |RemoveMarkers(s, m)| <= |s|
    decreases |s|
  {
    var r := RemoveMarkers(s, m);
    if s != [] {
      if StartsWith(s, m) {
        var rest := s[|m|..];
        if rest != [] && rest[0] == '\n' {
          RemovalOnlyDeletes(rest[1..], m);
          assert s[|m| + 1..] == rest[1..];
          SubsequenceOfSuffix(r, s, |m| + 1);
        } else {
          RemovalOnlyDeletes(rest, m);
          SubsequenceOfSuffix(r, s, |m|);
        }
      } else {
        RemovalOnlyDeletes(s[1..], m);
        assert r == [s[0]] + RemoveMarkers(s[1..], m);
        assert r[1..] == RemoveMarkers(s[1..], m);
      }
    }
    SubsequenceNoLonger(r, s);
  }

  /**
   * After the last pass no fence marker is left anywhere: a backtick the scan
   * keeps is never followed, in the output, by two more backticks, since the
   * scan would then have deleted it as the start of a marker.
   */
  lemma {:induction false} NoFenceAfterRemoval(s: string)
    ensures !Occurs(Fence, RemoveMarkers(s, Fence))
    decreases |s|
  {
    if s != [] {
      if StartsWith(s, Fence) {
        var rest := s[3..];
        if rest != [] && rest[0] == '\n' {
          NoFenceAfterRemoval(rest[1..]);
        } else {
          NoFenceAfterRemoval(rest);
        }
      } else {
        var t := s[1..];
        var tail := RemoveMarkers(t, Fence);
        NoFenceAfterRemoval(t);
        var r := [s[0]] + tail;
        assert r[1..] == tail;
        if |tail| >= 2 && s[0] == '`' {
          // a kept backtick is followed in the output by the very next input
          // character, and not by two more backticks
          assert t != [];
          assert t[0] == s[1];
          assert !StartsWith(t, Fence);
          assert tail == [t[0]] + RemoveMarkers(t[1..], Fence);
          if t[0] == '`' {
            var u := t[1..];
            assert u != [];
            assert u[0] == s[2];
            assert u[0] != '`';
            assert tail[1] == u[0];
          }
          assert r[..3] != Fence;
        }
      }
    }
  }

  /** A marker-free prefix made of no backticks passes through untouched. */
  lemma {:induction false} PlainPrefixKept(b: string, t: string, m: string)
    requires m != [] && m[0] == '`' && NoBacktick(b)
    ensures RemoveMarkers(b + t, m) == b + RemoveMarkers(t, m)
    decreases |b|
  {
    if b != [] {
      assert (b + t)[1..] == b[1..] + t;
      assert (b + t)[0] == b[0];
      assert !StartsWith(b + t, m);
      PlainPrefixKept(b[1..], t, m);
      calc {
        RemoveMarkers(b + t, m);
        [b[0]] + RemoveMarkers(b[1..] + t, m);
        [b[0]] + (b[1..] + RemoveMarkers(t, m));
        { assert [b[0]] + b[1..] == b; }
        b + RemoveMarkers(t, m);
      }
    } else {
      assert b + t == t;
    }
  }

  /** A string shorter than the marker cannot hold it and is kept whole. */
  lemma {:induction false} ShortTextKept(s: string, m: string)
    requires m != [] && |s| < |m|
    ensures RemoveMarkers(s, m) == s
    decreases |s|
  {
    if s != [] {
      ShortTextKept(s[1..], m);
    }
  }

  /**
   * The text handed to the parser is always the trimmed payload with some
   * characters deleted, so never longer than it.
   */
  lemma CleaningOnlyDeletes(payload: string)
    ensures IsSubsequence(CleanResponse(payload), Trim(payload))
    ensures |CleanResponse(payload)| <= |Trim(payload)|
  {
    var t := Trim(payload);
    if StartsWith(t, JsonFence) {
      var once := RemoveMarkers(t, JsonFence);
      RemovalOnlyDeletes(t, JsonFence);
      RemovalOnlyDeletes(once, Fence);
      SubsequenceTransitive(RemoveMarkers(once, Fence), once, t);
      SubsequenceNoLonger(RemoveMarkers(once, Fence), t);
    } else if StartsWith(t, Fence) {
      RemovalOnlyDeletes(t, Fence);
    } else {
      SubsequenceReflexive(t);
    }
  }

  /** Text with no whitespace at either end and no marker at its head reaches the parser unchanged. */
  lemma PlainTextKept(t: string)
    requires t == [] || (!IsSpace(t[0]) && !IsSpace(t[|t| - 1]))
    requires t == [] || t[0] != '`'
    ensures CleanResponse(t) == t
  {
    assert Trim(t) == t;
    assert !StartsWith(t, Fence) by {
      assert t == [] || t[0] != Fence[0];
    }
  }

  /** A payload whose trimmed text starts with a marker comes out with no marker anywhere. */
  lemma FencedLeavesNoMarker(payload: string)
    requires StartsWith(Trim(payload), Fence)
    ensures !Occurs(Fence, CleanResponse(payload))
  {
    var t := Trim(payload);
    if StartsWith(t, JsonFence) {
      NoFenceAfterRemoval(RemoveMarkers(t, JsonFence));
    } else {
      NoFenceAfterRemoval(t);
    }
  }

  /** The tail "\n```" of a fenced block keeps its line feed and loses its marker. */
  lemma ClosingFenceCleaned(b: string)
    requires NoBacktick(b)
    ensures RemoveMarkers(b + "\n```", JsonFence) == b + "\n```"
    ensures RemoveMarkers(b + "\n```", Fence) == b + "\n"
  {
    PlainPrefixKept(b, "\n```", JsonFence);
    ShortTextKept("\n```", JsonFence);
    assert NoBacktick(b + "\n");
    PlainPrefixKept(b + "\n", "```", Fence);
    assert b + "\n```" == (b + "\n") + "```";
    assert RemoveMarkers("```", Fence) == [];
  }

  /** A payload that opens and closes with a backtick is cleaned without being trimmed first. */
  lemma BacktickEndsNotTrimmed(s: string)
    requires |s| > 0 && s[0] == '`' && s[|s| - 1] == '`'
    ensures CleanResponse(s) == Unfence(s)
  {
    assert Trim(s) == s;
  }

  /** A marker that opens the text, with the line feed after it, is deleted. */
  lemma OpeningMarkerRemoved(m: string, rest: string)
    requires m != []
    ensures RemoveMarkers(m + "\n" + rest, m) == RemoveMarkers(rest, m)
  {
    var s := m + "\n" + rest;
    assert s[..|m|] == m;
    assert s[|m|..] == "\n" + rest;
    assert ("\n" + rest)[1..] == rest;
  }

  /** Text opening with "```json" and a line feed: the opening line goes, then both passes run on the rest. */
  lemma TaggedOpeningRemoved(x: string)
    ensures Unfence(JsonFence + "\n" + x) == RemoveMarkers(RemoveMarkers(x, JsonFence), Fence)
  {
    var s := JsonFence + "\n" + x;
    assert StartsWith(s, JsonFence);
    OpeningMarkerRemoved(JsonFence, x);
  }

  /** Text opening with "```" and a line feed: the opening line goes, then the bare pass runs on the rest. */
  lemma BareOpeningRemoved(x: string)
    ensures Unfence(Fence + "\n" + x) == RemoveMarkers(x, Fence)
  {
    var s := Fence + "\n" + x;
    assert s[3] == '\n';
    assert !StartsWith(s, JsonFence);
    assert StartsWith(s, Fence);
    OpeningMarkerRemoved(Fence, x);
  }

  /** A fenced block whose text ends with a backtick is not trimmed. */
  lemma FencedBlockNotTrimmed(opening: string, x: string)
    requires opening != [] && opening[0] == '`'
    requires x != [] && x[|x| - 1] == '`'
    ensures CleanResponse(opening + x) == Unfence(opening + x)
  {
    var s := opening + x;
    assert s[|s| - 1] == x[|x| - 1];
    BacktickEndsNotTrimmed(s);
  }

  /** "```json\n" + b + "\n```" cleans to b + "\n" for a body without backticks. */
  lemma TaggedBlockUnwraps(b: string)
    requires NoBacktick(b)
    ensures CleanResponse("```json\n" + b + "\n```") == b + "\n"
  {
    var x := b + "\n```";
    assert "```json\n" + b + "\n```" == (JsonFence + "\n") + x;
    FencedBlockNotTrimmed(JsonFence + "\n", x);
    TaggedOpeningRemoved(x);
    ClosingFenceCleaned(b);
  }

  /** "```\n" + b + "\n```" cleans to b + "\n" for a body without backticks. */
  lemma BareBlockUnwraps(b: string)
    requires NoBacktick(b)
    ensures CleanResponse("```\n" + b + "\n```") == b + "\n"
  {
    var x := b + "\n```";
    assert "```\n" + b + "\n```" == (Fence + "\n") + x;
    FencedBlockNotTrimmed(Fence + "\n", x);
    BareOpeningRemoved(x);
    ClosingFenceCleaned(b);
  }

  /** A marker inside the body goes, and what follows it stays. */
  lemma InnerMarkerRemoved(b2: string)
    requires NoBacktick(b2) && b2 != [] && b2[0] != '\n'
    ensures RemoveMarkers("```" + (b2 + "\n```"), Fence) == b2 + "\n"
  {
    var after := "```" + (b2 + "\n```");
    assert after[..3] == Fence;
    assert after[3..] == b2 + "\n```";
    assert after[3..][0] != '\n';
    ClosingFenceCleaned(b2);
  }

  /**
   * The cleaning does not respect JSON structure: a marker inside the body,
   * for instance inside a string value, is deleted as well.
   */
  lemma InnerMarkerDeleted(b1: string, b2: string)
    requires NoBacktick(b1) && NoBacktick(b2)
    requires b2 != [] && b2[0] != '\n'
    ensures CleanResponse("```\n" + b1 + "```" + b2 + "\n```") == b1 + b2 + "\n"
  {
    var after := "```" + (b2 + "\n```");
    var x := b1 + after;
    assert "```\n" + b1 + "```" + b2 + "\n```" == (Fence + "\n") + x;
    assert x[|x| - 1] == '`';
    FencedBlockNotTrimmed(Fence + "\n", x);
    BareOpeningRemoved(x);
    PlainPrefixKept(b1, after, Fence);
    InnerMarkerRemoved(b2);
    assert b1 + (b2 + "\n") == b1 + b2 + "\n";
  }
}
