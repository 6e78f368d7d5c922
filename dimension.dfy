/** Width and height of an image or video, printed as "<width>x<height>". */
module Dimensions {
  import opened Text

  const SEPARATOR: char := 'x'

  /** Any pair of Ints is a Dimension: positivity is checked only when decoding one. */
  datatype Dimension = Dimension(width: Int32, height: Int32) {

    /** The width, the letter 'x', then the height: exactly two pieces around the one 'x'. */
    function ToString(): (s: string)
      ensures Split(s, {SEPARATOR}) == [IntToString(width), IntToString(height)]
    {
      var w, h := IntToString(width), IntToString(height);
      NoSeparator(w);
      NoSeparator(h);
      SplitHead(w, SEPARATOR, h, {SEPARATOR});
      SplitFree(h, {SEPARATOR});
      w + [SEPARATOR] + h
    }
  }

  /** A rendered Int holds digits and at most a minus sign, never the letter 'x'. */
  lemma NoSeparator(s: string)
    requires forall k | 0 <= k < |s| :: IsDigit(s[k]) || s[k] == '-'
    ensures Free(s, {SEPARATOR})
  {
  }
}
