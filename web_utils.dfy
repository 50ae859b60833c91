/**
 * The string helpers of the web client: a user's initials and the URL of an
 * uploaded image. Letter case is mapped for ASCII letters only.
 */
module WebUtils {
  import opened Common

  /** `charAt(0).toUpperCase()`: the upper-cased first character, or "" for "". */
  function FirstUpper(s: string): (r: string)
    ensures |r| <= 1
    ensures s == [] <==> r == []
    ensures s != [] ==> r == [UpperChar(s[0])]
  {
    if s == [] then [] else [UpperChar(s[0])]
  }

  /** `getInitials`: the first letters of the first and last name, upper-cased, or "?" when there are none. */
  function GetInitials(firstName: Option<string>, lastName: Option<string>): (r: string)
    ensures 1 <= |r| <= 2
    ensures firstName.GetOr("") == "" && lastName.GetOr("") == "" ==> r == "?"
    ensures firstName.GetOr("") != "" ==> r[0] == UpperChar(firstName.value[0])
    ensures firstName.GetOr("") != "" && lastName.GetOr("") != "" ==>
              r == [UpperChar(firstName.value[0]), UpperChar(lastName.value[0])]
    ensures firstName.GetOr("") != "" && lastName.GetOr("") == "" ==> r == [UpperChar(firstName.value[0])]
    ensures firstName.GetOr("") == "" && lastName.GetOr("") != "" ==> r == [UpperChar(lastName.value[0])]
  {
    var initials := FirstUpper(firstName.GetOr("")) + FirstUpper(lastName.GetOr(""));
    if initials == "" then "?" else initials
  }

  /** The initials are spelled with upper-case ASCII letters wherever the names start with ASCII letters of either case. */
  lemma InitialsOfLetters(firstName: string, lastName: string)
    requires firstName != [] && ('a' <= firstName[0] <= 'z' || 'A' <= firstName[0] <= 'Z')
    requires lastName != [] && ('a' <= lastName[0] <= 'z' || 'A' <= lastName[0] <= 'Z')
    ensures var r := GetInitials(Some(firstName), Some(lastName));
            |r| == 2 && 'A' <= r[0] <= 'Z' && 'A' <= r[1] <= 'Z'
  {
  }

  const DefaultApiUrl := "http://localhost:5000"

  /** `baseUrl ?? NEXT_PUBLIC_API_URL ?? 'http://localhost:5000'`; the environment value is a parameter. */
  function ImageBase(baseUrl: Option<string>, apiUrl: Option<string>): string
  {
    if baseUrl.Some? then baseUrl.value else apiUrl.GetOr(DefaultApiUrl)
  }

  /** `buildImageUrl`: no URL for a missing or empty path; absolute http(s) paths as they are; otherwise base, "/", path. */
  function BuildImageUrl(path: Option<string>, baseUrl: Option<string>, apiUrl: Option<string>): (r: Option<string>)
    ensures path.None? || path.value == "" ==> r.None?
    ensures path.Some? && StartsWith(path.value, "http") ==> r == path
    ensures (&& path.Some? && path.value != "" && !StartsWith(path.value, "http"))
            ==> && r.Some?
                && StartsWith(r.value, ImageBase(baseUrl, apiUrl) + "/")
                && r.value == ImageBase(baseUrl, apiUrl) + (if StartsWith(path.value, "/") then path.value else "/" + path.value)
  {
    if path.None? || path.value == "" then None
    else if StartsWith(path.value, "http") then path
    else
      var base := ImageBase(baseUrl, apiUrl);
      var tail := if StartsWith(path.value, "/") then path.value else "/" + path.value;
      assert (base + tail)[..|base| + 1] == base + "/";
      Some(base + tail)
  }

  /** A prefix of a string stays a prefix when more is appended. */
  lemma StartsWithAppend(s: string, t: string, prefix: string)
    requires StartsWith(s, prefix)
    ensures StartsWith(s + t, prefix)
  {
    assert (s + t)[..|prefix|] == s[..|prefix|];
  }

  /** With an http(s) base, feeding a built URL back in returns it unchanged. */
  lemma BuildImageUrlIdempotent(path: Option<string>, baseUrl: Option<string>, apiUrl: Option<string>)
    requires StartsWith(ImageBase(baseUrl, apiUrl), "http")
    ensures var once := BuildImageUrl(path, baseUrl, apiUrl);
            BuildImageUrl(once, baseUrl, apiUrl) == once
  {
    var once := BuildImageUrl(path, baseUrl, apiUrl);
    if once.Some? && !StartsWith(path.value, "http") {
      var base := ImageBase(baseUrl, apiUrl);
      StartsWithAppend(base, once.value[|base|..], "http");
      assert base + once.value[|base|..] == once.value;
    }
  }

  /** Example: the default base makes a relative path absolute: "img/a.png" becomes "http://localhost:5000/img/a.png". */
  lemma DefaultBaseExample()
    ensures BuildImageUrl(Some("img/a.png"), None, None) == Some("http://localhost:5000/img/a.png")
    ensures BuildImageUrl(Some("/img/a.png"), None, None) == Some("http://localhost:5000/img/a.png")
  {
    NotStartsWith("img/a.png", "http", 0);
    NotStartsWith("/img/a.png", "http", 0);
    NotStartsWith("img/a.png", "/", 0);
    assert StartsWith("/img/a.png", "/") by {
      assert "/img/a.png"[..1] == "/";
    }
    assert DefaultApiUrl + ("/" + "img/a.png") == "http://localhost:5000/img/a.png";
    assert DefaultApiUrl + "/img/a.png" == "http://localhost:5000/img/a.png";
  }
}
