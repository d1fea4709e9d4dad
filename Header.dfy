/** The page header's navigation: which link is highlighted for the current
    location. */
module Header {
  import JsText

  /** `isActive(href)` against `location.pathname`: the home link only on the
      home page itself, every other link whenever the path starts with its
      `href`, character by character. */
  function IsActive(pathname: string, href: string): (active: bool)
    ensures href == "/" ==> (active <==> pathname == "/")
    ensures href != "/" ==>
              (active <==> |href| <= |pathname| && forall k :: 0 <= k < |href| ==> pathname[k] == href[k])
  {
    if href == "/" then pathname == "/" else JsText.StartsWith(pathname, href)
  }

  /** The home link is not highlighted on any other page, although "/" is a
      prefix of every path. */
  lemma HomeOnlyOnHome(pathname: string)
    requires pathname != "/"
    ensures !IsActive(pathname, "/")
  {
  }

  lemma HomeNotActiveOnCampaigns()
    ensures !IsActive("/campaigns", "/")
    ensures JsText.StartsWith("/campaigns", "/")
  {
  }

  /** Matching is by characters, not by path segments: "/camp" is
      highlighted on "/campaigns". */
  lemma PrefixMatchIsCharacterBased()
    ensures IsActive("/campaigns", "/camp")
    ensures IsActive("/campaigns/42", "/campaigns")
    ensures !IsActive("/create-segment", "/campaigns")
  {
    assert "/campaigns"[..5] == "/camp";
    assert "/campaigns/42"[..10] == "/campaigns";
    assert "/create-segment"[..10] != "/campaigns" by {
      assert "/create-segment"[2] != "/campaigns"[2];
    }
  }

  /** A highlighted non-home link keeps every shorter non-home link that is
      a prefix of its `href` highlighted too. */
  lemma ActiveClosedUnderPrefix(pathname: string, href: string, shorter: string)
    requires href != "/" && shorter != "/"
    requires IsActive(pathname, href)
    requires |shorter| <= |href| && href[..|shorter|] == shorter
    ensures IsActive(pathname, shorter)
  {
  }

  /** On the home page no link other than the home link (and a degenerate
      empty `href`) is highlighted. */
  lemma OnlyHomeOnHomePage(href: string)
    requires href != "/" && href != ""
    ensures !IsActive("/", href)
  {
  }
}
