/** The one piece of application settings with behaviour: the validator that
    turns the BACKEND_CORS_ORIGINS setting into a list of origins. */
module Config {
  import opened Text

  /** The setting accepts either a single string or a list of strings. */
  datatype CorsOrigins = Single(text: string) | Many(origins: seq<string>)

  /** The pieces of a comma-separated origin list, stripped, empties dropped, in order. */
  function StrippedPieces(pieces: seq<string>): (r: seq<string>)
    ensures |r| <= |pieces|
    ensures forall k :: 0 <= k < |r| ==> r[k] != [] && IsStripped(r[k])
  {
    if pieces == [] then []
    else
      var head := Strip(pieces[0]);
      StripShape(pieces[0]);
      if head != [] then [head] + StrippedPieces(pieces[1..]) else StrippedPieces(pieces[1..])
  }

  /** `Settings.assemble_cors_origins`. */
  function AssembleCorsOrigins(v: CorsOrigins): (r: CorsOrigins)
    ensures v == Single("*") ==> r == v
    ensures v.Many? ==> r == v
    ensures v.Single? && v.text != "*" ==> r.Many?
    ensures v.Single? && v.text != "*" ==>
              forall k :: 0 <= k < |r.origins| ==> r.origins[k] != [] && IsStripped(r.origins[k])
  {
    match v
    case Single(s) => if s == "*" then v else Many(StrippedPieces(Split(s, ',')))
    case Many(_) => v
  }

  /** The list is built piece by piece in order: the result for two runs of
      pieces is the result for the first followed by that for the second. */
  lemma {:induction false} StrippedPiecesAppend(a: seq<string>, b: seq<string>)
    ensures StrippedPieces(a + b) == StrippedPieces(a) + StrippedPieces(b)
  {
    if a != [] {
      assert (a + b)[1..] == a[1..] + b;
      StrippedPiecesAppend(a[1..], b);
    } else {
      assert a + b == b;
    }
  }

  /** Every origin of the result is the stripped form of some piece. */
  lemma {:induction false} StrippedPiecesSource(pieces: seq<string>, x: string)
    requires x in StrippedPieces(pieces)
    ensures exists k :: 0 <= k < |pieces| && x == Strip(pieces[k])
  {
    if Strip(pieces[0]) != x {
      StrippedPiecesSource(pieces[1..], x);
      var k :| 0 <= k < |pieces[1..]| && x == Strip(pieces[1..][k]);
      assert x == Strip(pieces[k + 1]);
    }
  }

  /** Conversely, no non-blank piece is lost: each one appears, stripped, in the result. */
  lemma {:induction false} StrippedPiecesKeep(pieces: seq<string>, k: nat)
    requires k < |pieces| && Strip(pieces[k]) != []
    ensures Strip(pieces[k]) in StrippedPieces(pieces)
  {
    if k > 0 {
      StrippedPiecesKeep(pieces[1..], k - 1);
    }
  }
}
