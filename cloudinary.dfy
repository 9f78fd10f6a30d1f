// The URL side of the Cloudinary storage service (src/services/cloudinaryStorage.ts): the
// delivery-URL transformation builder, the thumbnail shorthand and the deletion stub. The uploads
// are network requests and are not modelled. Widths and heights are integers here.
module Cloudinary {
  import opened Wrappers
  import opened Text

  /** The marker after which Cloudinary reads the transformation segment. */
  const Upload: string := "/upload/"

  /** The fixed transformations appended after the optional size: limit crop, automatic quality and format. */
  const Fixed: seq<string> := ["c_limit", "q_auto", "f_auto"]

  const ThumbnailSize: int := 200

  /** An optional number in a condition: given and not zero. */
  predicate Truthy(n: Option<int>) {
    n.Some? && n.value != 0
  }

  /** The transformation list: `w_<width>`, then `h_<height>`, each only when truthy, then the fixed three. */
  function Transformations(width: Option<int>, height: Option<int>): (r: seq<string>)
    ensures |r| == 3 + (if Truthy(width) then 1 else 0) + (if Truthy(height) then 1 else 0)
    ensures r[|r| - 3..] == Fixed
    ensures Truthy(width) ==> r[0] == "w_" + IntToString(width.value)
    ensures Truthy(height) ==> r[|r| - 4] == "h_" + IntToString(height.value)
    ensures !Truthy(width) && !Truthy(height) ==> r == Fixed
  {
    (if Truthy(width) then ["w_" + IntToString(width.value)] else [])
    + (if Truthy(height) then ["h_" + IntToString(height.value)] else [])
    + Fixed
  }

  /**
   * getOptimizedUrl: the empty url stays empty; a url that `split('/upload/')` cuts into exactly
   * two pieces gets the comma-joined list as a new path segment right after the marker; any
   * other url is returned as it is.
   */
  function OptimizedUrl(url: string, width: Option<int>, height: Option<int>): string {
    if url == "" then ""
    else
      var parts := SplitOn(url, Upload);
      if |parts| == 2 then parts[0] + Upload + Join(Transformations(width, height), ",") + "/" + parts[1]
      else url
  }

  /** getThumbnailUrl: the optimized url at 200 by 200. */
  function ThumbnailUrl(url: string): string {
    OptimizedUrl(url, Some(ThumbnailSize), Some(ThumbnailSize))
  }

  /**
   * Where the url splits into two pieces around the marker, the result is the url with one
   * segment inserted after the marker, and that segment is the joined list; a url without the
   * marker, and the empty url, come back unchanged.
   */
  lemma OptimizedShape(url: string, width: Option<int>, height: Option<int>)
    ensures OptimizedUrl("", width, height) == ""
    ensures !Contains(url, Upload) ==> OptimizedUrl(url, width, height) == url
    ensures |SplitOn(url, Upload)| != 2 ==> OptimizedUrl(url, width, height) == url
    ensures |SplitOn(url, Upload)| == 2 ==>
      var parts := SplitOn(url, Upload);
      && url == parts[0] + Upload + parts[1]
      && OptimizedUrl(url, width, height) == parts[0] + Upload + Join(Transformations(width, height), ",") + "/" + parts[1]
  {
    if !Contains(url, Upload) {
      SplitOnAbsent(url, Upload);
    }
    var parts := SplitOn(url, Upload);
    JoinSplitOn(url, Upload);
    if |parts| == 2 {
      assert Join(parts, Upload) == parts[0] + Upload + Join(parts[1..], Upload);
      assert parts[1..] == [parts[1]];
    }
  }

  /** The inserted segment is a single path segment: no piece of the list holds a slash. */
  lemma TransformationsSlashFree(width: Option<int>, height: Option<int>)
    ensures '/' !in Join(Transformations(width, height), ",")
  {
    var t := Transformations(width, height);
    forall k | 0 <= k < |t| ensures '/' !in t[k] {
      if Truthy(width) && k == 0 {
        IntToStringSlashFree(width.value);
      } else if Truthy(height) && k == |t| - 4 {
        IntToStringSlashFree(height.value);
      } else {
        assert t[k] in Fixed;
      }
    }
    JoinSlashFree(t, ",");
  }

  /** A thumbnail url carries the 200 by 200 size before the fixed transformations. */
  lemma ThumbnailSegment()
    ensures Transformations(Some(ThumbnailSize), Some(ThumbnailSize)) == ["w_200", "h_200", "c_limit", "q_auto", "f_auto"]
  {
    assert IntToString(200) == "200" by {
      assert NatToString(2) == "2";
      assert NatToString(20) == NatToString(2) + "0";
      assert NatToString(200) == NatToString(20) + "0";
    }
    assert "w_" + "200" == "w_200" && "h_" + "200" == "h_200";
  }

  lemma {:induction false} NatToStringSlashFree(n: nat)
    ensures '/' !in NatToString(n)
    decreases n
  {
    if n >= 10 {
      NatToStringSlashFree(n / 10);
    }
  }

  lemma IntToStringSlashFree(i: int)
    ensures '/' !in IntToString(i)
  {
    NatToStringSlashFree(if i < 0 then -i else i);
  }

  lemma {:induction false} JoinSlashFree(parts: seq<string>, sep: string)
    requires '/' !in sep && forall k :: 0 <= k < |parts| ==> '/' !in parts[k]
    ensures '/' !in Join(parts, sep)
    decreases |parts|
  {
    if |parts| > 1 {
      JoinSlashFree(parts[1..], sep);
    }
  }
}
