/** The image-upload helpers of the union and ad screens: the MIME-type gate on a chosen
    file and the stripping of the `data:<type>;base64,` prefix that `readAsDataURL`
    puts in front of the payload. */
module Images {
  import opened Text

  /** `file.type.startsWith('image/')`. */
  predicate IsImageType(mime: string) {
    StartsWith(mime, "image/")
  }

  /** `prepareImageForUpload` (and the inline copy in the ad screen), which returns
      `s.split(',')[1]` when `s` has a comma and `s` itself otherwise. The piece it keeps
      starts right after the first comma and runs to the next comma or to the end. */
  function StripDataUriPrefix(s: string): (r: string)
    ensures ',' !in r
    ensures ',' !in s ==> r == s
    ensures ',' in s ==> var i := IndexOf(s, ',');
                         && OccursAt(r, s, i + 1)
                         && (i + 1 + |r| == |s| || s[i + 1 + |r|] == ',')
  {
    if ',' in s then
      var i := IndexOf(s, ',');
      var rest := s[i + 1..];
      var j := IndexOf(rest, ',');
      assert rest[..j] == s[i + 1..i + 1 + j];
      rest[..j]
    else s
  }

  /** Stripping twice strips no more than stripping once. */
  lemma StripIdempotent(s: string)
    ensures StripDataUriPrefix(StripDataUriPrefix(s)) == StripDataUriPrefix(s)
  {
  }

  /** For a data URI as `readAsDataURL` builds it, stripping gives back exactly the
      base64 payload (whose alphabet has no comma). */
  lemma StripDataUri(header: string, payload: string)
    requires ',' !in header && ',' !in payload
    ensures StripDataUriPrefix(header + "," + payload) == payload
  {
    var s := header + "," + payload;
    assert s[|header|] == ',';
    assert forall i :: 0 <= i < |header| ==> s[i] == header[i];
    var i := IndexOf(s, ',');
    assert i == |header|;
    var rest := s[i + 1..];
    assert rest == payload;
    assert IndexOf(rest, ',') == |rest|;
  }
}
