/**
 * The `type` attribute of the favicon `<link>` (src/mui.tsx:475-489) and the
 * choice of favicon URL (src/mui.tsx:504-507).
 */
module MuiFavicon {

  import opened Wrappers
  import opened JsStrings

  datatype FaviconError = UnsupportedFaviconFileType

  /**
   * `t` is what `url.split("data:")[1].split(",")[0]` yields for a URL that
   * starts with `data:`: the text after that prefix up to the first `,` or
   * the next `data:`, whichever comes first, or to the end.
   */
  predicate IsDataUrlType(url: string, t: string)
    requires StartsWith(url, "data:")
  {
    var rest := url[5..];
    && StartsWith(rest, t)
    && (|t| == |rest| || rest[|t|] == ',' || OccursAt(rest, "data:", |t|))
    && (forall j :: 0 <= j < |t| ==> t[j] != ',')
    && (forall j: nat :: j < |t| ==> !OccursAt(rest, "data:", j))
  }

  /** The `switch` on the lower-cased extension: one MIME type per supported extension, otherwise the error. */
  function ExtensionType(ext: string): (r: Result<string, FaviconError>)
    ensures r == Success("image/svg+xml") <==> ext == "svg"
    ensures r == Success("image/png") <==> ext == "png"
    ensures r == Success("image/x-icon") <==> ext == "ico"
    ensures r.Success? <==> ext in {"svg", "png", "ico"}
    ensures r.Failure? ==> r.error == UnsupportedFaviconFileType
  {
    match ext
    case "svg" => Success("image/svg+xml")
    case "png" => Success("image/png")
    case "ico" => Success("image/x-icon")
    case _ => Failure(UnsupportedFaviconFileType)
  }

  /** The value assigned to `link.type`, or the error thrown. */
  function FaviconType(url: string): (r: Result<string, FaviconError>)
    ensures StartsWith(url, "data:") ==> r.Success? && IsDataUrlType(url, r.value)
    ensures !StartsWith(url, "data:") ==>
      (r.Success? <==> ToLower(AfterLast(url, '.')) in {"svg", "png", "ico"})
    ensures !StartsWith(url, "data:") && ToLower(AfterLast(url, '.')) == "svg" ==> r == Success("image/svg+xml")
    ensures !StartsWith(url, "data:") && ToLower(AfterLast(url, '.')) == "png" ==> r == Success("image/png")
    ensures !StartsWith(url, "data:") && ToLower(AfterLast(url, '.')) == "ico" ==> r == Success("image/x-icon")
    ensures !StartsWith(url, "data:") && r.Failure? ==> r.error == UnsupportedFaviconFileType
  {
    if StartsWith(url, "data:") then
      var mediaType := SplitHead(url[5..], "data:");
      var t := SplitHead(mediaType, ",");
      assert forall j :: 0 <= j < |t| ==> t[j] != ',' by {
        forall j | 0 <= j < |t| ensures t[j] != ',' {
          OccursAtChar(mediaType, ',', j);
        }
      }
      assert |t| < |mediaType| ==> mediaType[|t|] == ',' by {
        OccursAtChar(mediaType, ',', |t|);
      }
      Success(t)
    else
      ExtensionType(ToLower(AfterLast(url, '.')))
  }

  /**
   * Outside `data:` URLs the type is decided by the text after the last `.`
   * alone, lower-cased.
   */
  lemma FaviconTypeByExtension(url: string, ext: string)
    requires !StartsWith(url, "data:")
    requires EndsWith(url, ext) && '.' !in ext
    requires |ext| == |url| || url[|url| - |ext| - 1] == '.'
    ensures FaviconType(url) == ExtensionType(ToLower(ext))
  {
    AfterLastUnique(url, '.', ext);
  }

  /** A URL without any `.` is judged on the whole string. */
  lemma FaviconTypeWithoutDot(url: string)
    requires !StartsWith(url, "data:") && '.' !in url
    ensures FaviconType(url) == ExtensionType(ToLower(url))
  {
    FaviconTypeByExtension(url, url);
  }

  /** Upper-case extensions are accepted: lower-casing the URL does not change its type. */
  lemma FaviconTypeIgnoresCase(url: string)
    requires !StartsWith(url, "data:") && !StartsWith(ToLower(url), "data:")
    ensures FaviconType(ToLower(url)) == FaviconType(url)
  {
    var ext := AfterLast(url, '.');
    AfterLastToLower(url);
    ToLowerIdempotent(ext);
    assert AfterLast(ToLower(url), '.') == ToLower(ext);
    assert FaviconType(ToLower(url)) == ExtensionType(ToLower(ToLower(ext)));
  }

  /** The characterisation of a `data:` URL's type leaves exactly one candidate. */
  lemma DataUrlTypeUnique(url: string, t1: string, t2: string)
    requires StartsWith(url, "data:")
    requires IsDataUrlType(url, t1) && IsDataUrlType(url, t2)
    ensures t1 == t2
  {
  }

  /**
   * For `data:<m>,<payload>` the type is all of `<m>`, parameters included:
   * with `m` = `image/png;base64` the `;base64` marker stays in the type.
   */
  lemma DataUrlTypeKeepsParameters(m: string, payload: string)
    requires ',' !in m
    requires forall j: nat :: j < |m| ==> !OccursAt(m, "data:", j)
    ensures FaviconType("data:" + m + "," + payload) == Success(m)
  {
    var rest := m + "," + payload;
    var url := "data:" + rest;
    assert url == "data:" + m + "," + payload;
    assert url[5..] == rest;
    forall j: nat | j < |m| ensures !OccursAt(rest, "data:", j) {
      if j + 5 <= |m| {
        assert rest[j..j + 5] == m[j..j + 5];
        assert !OccursAt(m, "data:", j);
      } else if j + 5 <= |rest| {
        assert rest[j..j + 5][|m| - j] == ',';
      }
    }
    assert rest[|m|] == ',';
    assert IsDataUrlType(url, m);
    DataUrlTypeUnique(url, m, FaviconType(url).value);
  }

  /**
   * The URL handed to `useFavicon`: the user's own favicon when the custom
   * theme supplies one, otherwise the bundled Marianne favicon for the
   * government theme and a blank one for a custom theme.
   */
  function FaviconUrl(userProvided: Option<string>, isGov: bool, marianneAssetUrl: string, blankAssetUrl: string): (url: string)
    ensures userProvided.Some? ==> url == userProvided.value
    ensures userProvided.None? && isGov ==> url == marianneAssetUrl
    ensures userProvided.None? && !isGov ==> url == blankAssetUrl
  {
    userProvided.GetOr(if isGov then marianneAssetUrl else blankAssetUrl)
  }

  /** An asset URL as a bundler produces it for an `.svg` file: inlined, or a path ending in `.svg`. */
  predicate IsSvgAssetUrl(url: string) {
    StartsWith(url, "data:") || ToLower(AfterLast(url, '.')) == "svg"
  }

  /** Without a user favicon the fallback never throws: both bundled favicons are SVG files. */
  lemma FallbackFaviconTypeSucceeds(isGov: bool, marianneAssetUrl: string, blankAssetUrl: string)
    requires IsSvgAssetUrl(marianneAssetUrl) && IsSvgAssetUrl(blankAssetUrl)
    ensures
      var url := FaviconUrl(None, isGov, marianneAssetUrl, blankAssetUrl);
      && FaviconType(url).Success?
      && (!StartsWith(url, "data:") ==> FaviconType(url) == Success("image/svg+xml"))
  {
  }
}
