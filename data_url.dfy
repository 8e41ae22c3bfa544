/**
 * The "data" URL scheme of section 2 of RFC 2397:
 *   dataurl := "data:" [ mediatype ] [ ";base64" ] "," data
 * The media type is kept as written: the default "text/plain;charset=US-ASCII" that the
 * RFC gives an omitted media type is not filled in.
 */
module DataUrl {
  import opened Wrappers

  datatype Parts = Parts(mediaType: string, base64: bool, data: string)

  const Scheme := "data:"
  const Base64Marker := ";base64"

  /** Everything between the scheme and the comma. */
  function Header(mediaType: string, base64: bool): string {
    mediaType + (if base64 then Base64Marker else "")
  }

  function Format(p: Parts): string {
    Scheme + (Header(p.mediaType, p.base64) + "," + p.data)
  }

  predicate EndsWith(s: string, suffix: string) {
    |suffix| <= |s| && s[|s| - |suffix|..] == suffix
  }

  /** The position of the first `c` in `s`, or `|s|` when there is none. */
  function IndexOf(s: string, c: char): (i: nat)
    ensures i <= |s|
    ensures i < |s| ==> s[i] == c
    ensures forall k :: 0 <= k < i ==> s[k] != c
    ensures i == |s| <==> c !in s
  {
    if s == "" || s[0] == c then 0 else 1 + IndexOf(s[1..], c)
  }

  /** Separates the media type from a trailing ";base64" marker. */
  function SplitHeader(header: string): (r: (string, bool))
    ensures Header(r.0, r.1) == header
  {
    if EndsWith(header, Base64Marker) then
      (header[..|header| - |Base64Marker|], true)
    else
      (header, false)
  }

  /** The part of a data URL after the scheme, split at its first comma. */
  function ParseAfterScheme(rest: string): (r: Option<Parts>)
    ensures r.None? <==> ',' !in rest
    ensures r.Some? ==> Header(r.value.mediaType, r.value.base64) + "," + r.value.data == rest
    ensures r.Some? ==> ',' !in r.value.mediaType
  {
    var i := IndexOf(rest, ',');
    if i == |rest| then None
    else
      var (mediaType, isBase64) := SplitHeader(rest[..i]);
      HeaderBeforeComma(rest, i, mediaType, isBase64);
      Some(Parts(mediaType, isBase64, rest[i + 1..]))
  }

  lemma HeaderBeforeComma(rest: string, i: nat, mediaType: string, isBase64: bool)
    requires i < |rest| && rest[i] == ',' && forall k :: 0 <= k < i ==> rest[k] != ','
    requires rest[..i] == Header(mediaType, isBase64)
    ensures Header(mediaType, isBase64) + "," + rest[i + 1..] == rest
    ensures ',' !in mediaType
  {
    assert rest == rest[..i] + "," + rest[i + 1..];
    forall k | 0 <= k < |mediaType| ensures mediaType[k] != ',' {
      assert mediaType[k] == rest[..i][k];
    }
  }

  /**
   * Splits a data URL at its first comma into the header (media type and base64 flag)
   * and the data. Fails exactly when the scheme is missing or no comma follows it.
   */
  function Parse(url: string): (r: Option<Parts>)
    ensures r.None? <==> !(Scheme <= url && ',' in url[|Scheme|..])
    ensures r.Some? ==> Format(r.value) == url && ',' !in r.value.mediaType
  {
    if !(Scheme <= url) then None
    else
      var r := ParseAfterScheme(url[|Scheme|..]);
      assert url == Scheme + url[|Scheme|..];
      r
  }

  /** Parsing a formatted URL gives its parts back, when the header is unambiguous. */
  lemma ParseFormat(p: Parts)
    requires ',' !in p.mediaType
    requires !p.base64 ==> !EndsWith(p.mediaType, Base64Marker)
    ensures Parse(Format(p)) == Some(p)
  {
    var header := Header(p.mediaType, p.base64);
    assert ',' !in header;
    var rest := header + "," + p.data;
    IndexOfAfter(header, p.data, ',');
    assert rest[..|header|] == header;
    assert rest[|header| + 1..] == p.data;
    assert SplitHeader(header) == (p.mediaType, p.base64) by {
      if p.base64 {
        assert header == p.mediaType + Base64Marker;
        assert header[|header| - |Base64Marker|..] == Base64Marker;
        assert header[..|header| - |Base64Marker|] == p.mediaType;
      } else {
        assert header == p.mediaType;
      }
    }
    assert ParseAfterScheme(rest) == Some(p);
    assert Format(p)[|Scheme|..] == rest;
  }

  /** The first `c` in `a + [c] + b` is the one after `a`, when `a` has none. */
  lemma IndexOfAfter(a: string, b: string, c: char)
    requires c !in a
    ensures IndexOf(a + [c] + b, c) == |a|
  {
    var s := a + [c] + b;
    assert s[|a|] == c;
    forall k | 0 <= k < |a| ensures s[k] != c {
      assert s[k] == a[k];
    }
  }
}
