/**
 * Splitting a URL text at '/', used to state which segments an endpoint
 * consists of and in what order.
 */
module UrlPaths {

  predicate SlashFree(s: string) {
    forall i :: 0 <= i < |s| ==> s[i] != '/'
  }

  /** The pieces of `s` between slashes, left to right; always at least one. */
  function Segments(s: string): (r: seq<string>)
    ensures |r| >= 1
    decreases |s|
  {
    if s == [] then [""]
    else if s[0] == '/' then [""] + Segments(s[1..])
    else
      var rest := Segments(s[1..]);
      [[s[0]] + rest[0]] + rest[1..]
  }

  /** A slash-free text is a single segment. */
  lemma {:induction false} SegmentsOfSlashFree(x: string)
    requires SlashFree(x)
    ensures Segments(x) == [x]
    decreases |x|
  {
    if x != [] {
      assert SlashFree(x[1..]) by {
        forall i | 0 <= i < |x[1..]| ensures x[1..][i] != '/' { assert x[1..][i] == x[i + 1]; }
      }
      SegmentsOfSlashFree(x[1..]);
      assert [x[0]] + x[1..] == x;
    }
  }

  /** Splitting at a '/' that joins two texts splits each text on its own:
      the segments of `x + "/" + y` are those of `x` followed by those of `y`. */
  lemma {:induction false} SegmentsOfAppend(x: string, y: string)
    ensures Segments(x + "/" + y) == Segments(x) + Segments(y)
    decreases |x|
  {
    var s := x + "/" + y;
    if x == [] {
      assert s == "/" + y && s[1..] == y;
    } else {
      assert s[0] == x[0] && s[1..] == x[1..] + "/" + y;
      SegmentsOfAppend(x[1..], y);
    }
  }

  /** Appending a slash and a slash-free text adds exactly that one segment. */
  lemma SegmentsOfAppendOne(x: string, y: string)
    requires SlashFree(y)
    ensures Segments(x + "/" + y) == Segments(x) + [y]
  {
    SegmentsOfAppend(x, y);
    SegmentsOfSlashFree(y);
  }
}
