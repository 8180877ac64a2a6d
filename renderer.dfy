/**
 * The redirect renderer: either an HTTP 302 redirect or a 200 HTML page that
 * redirects from a script, with a link as fallback for clients without
 * scripts.
 */
module Renderer {
  import opened Wrappers
  import opened Http

  const HtmlContentType := "text/html;charset=UTF-8"

  const PageOpen := "<!DOCTYPE html>\n<html>\n<head>\n  <title>Redirecting...</title>\n  <script>\n    "
  const ScriptOpen := "window.location.replace(\""
  const ScriptClose := "\");"
  const PageMiddle := "\n  </script>\n</head>\n<body>\n  <p>Redirecting... <noscript>If the page does not redirect automatically, please "
  const LinkOpen := "<a href=\""
  const LinkClose := "\">click here</a>"
  const PageClose := ".</noscript></p>\n</body>\n</html>"

  /** The number of characters of the page that do not come from the target. */
  const PageOverhead := |PageOpen| + |ScriptOpen| + |ScriptClose| + |PageMiddle|
                        + |LinkOpen| + |LinkClose| + |PageClose|

  /** The script statement that navigates to `target`. */
  function ScriptCall(target: string): string {
    ScriptOpen + target + ScriptClose
  }

  /** The no-script fallback link to `target`. */
  function FallbackLink(target: string): string {
    LinkOpen + target + LinkClose
  }

  /** `piece` occurs in `page` as a contiguous substring. */
  ghost predicate Embeds(page: string, piece: string) {
    exists i :: 0 <= i <= |page| - |piece| && Window(page, i, |piece|) == piece
  }

  /** The `n` characters of `s` from position `i` on. */
  function Window(s: string, i: nat, n: nat): string
    requires i + n <= |s|
  {
    s[i..i + n]
  }

  /** `HTML_REDIRECT_PAGE`: the target is interpolated, unescaped, twice. */
  function HtmlRedirectPage(target: string): (page: string)
    ensures |page| == PageOverhead + 2 * |target|
    ensures Embeds(page, ScriptCall(target)) && Embeds(page, FallbackLink(target))
  {
    EmbedsBoth(PageOpen, ScriptCall(target), PageMiddle, FallbackLink(target), PageClose);
    PageOpen + ScriptCall(target) + PageMiddle + FallbackLink(target) + PageClose
  }

  lemma EmbedsBoth(a: string, x: string, m: string, y: string, c: string)
    ensures Embeds(a + x + m + y + c, x) && Embeds(a + x + m + y + c, y)
  {
    var page := a + x + m + y + c;
    assert page == a + x + (m + y + c);
    assert Window(page, |a|, |x|) == x;
    assert Window(page, |a + x + m|, |y|) == y;
  }

  /** `redirect(target, htmlRedirect)`. */
  function Redirect(target: string, htmlRedirect: bool): (r: Response)
    ensures !htmlRedirect ==> r.status == 302 && r.headers == map["Location" := target]
    ensures htmlRedirect ==> r.status == 200 && r.headers == map["Content-Type" := HtmlContentType]
    ensures htmlRedirect ==> Embeds(r.body, ScriptCall(target)) && Embeds(r.body, FallbackLink(target))
  {
    if htmlRedirect then
      Response(200, map["Content-Type" := HtmlContentType], HtmlRedirectPage(target))
    else
      Response(302, map["Location" := target], "")
  }

  /**
   * The target a redirect page navigates to, read back from the page: the
   * only string whose page is exactly `page`, if there is one.
   */
  function PageTarget(page: string): Option<string> {
    if |page| < PageOverhead || (|page| - PageOverhead) % 2 != 0 then None
    else
      var n := (|page| - PageOverhead) / 2;
      var start := |PageOpen| + |ScriptOpen|;
      var target := page[start..start + n];
      if HtmlRedirectPage(target) == page then Some(target) else None
  }

  /**
   * The target read back from a redirect response: the `Location` of a 302,
   * or the target of an HTML redirect page found by inverting the template.
   * The page inserts the target unescaped, so a browser reading a target
   * that holds `"`, `\`, `<` or `&` would not necessarily go there.
   */
  function Destination(r: Response): Option<string> {
    if r.status == 302 && "Location" in r.headers then Some(r.headers["Location"])
    else if r.status == 200 && "Content-Type" in r.headers && r.headers["Content-Type"] == HtmlContentType
    then PageTarget(r.body)
    else None
  }

  /** The page for `target` is read back as `target`. */
  lemma PageTargetOfPage(target: string)
    ensures PageTarget(HtmlRedirectPage(target)) == Some(target)
  {
    var page := HtmlRedirectPage(target);
    var before := PageOpen + ScriptOpen;
    var after := ScriptClose + PageMiddle + FallbackLink(target) + PageClose;
    RegroupPage(PageOpen, ScriptOpen, target, ScriptClose, PageMiddle, FallbackLink(target), PageClose);
    assert page == before + target + after;
    Middle(before, target, after);
    assert (|page| - PageOverhead) / 2 == |target|;
  }

  lemma RegroupPage(p: string, q: string, t: string, r: string, m: string, l: string, c: string)
    ensures p + (q + t + r) + m + l + c == (p + q) + t + (r + m + l + c)
  {
  }

  /** Whatever the mode, `target` is read back from the response exactly. */
  lemma RedirectReachesTarget(target: string, htmlRedirect: bool)
    ensures Destination(Redirect(target, htmlRedirect)) == Some(target)
  {
    if htmlRedirect {
      PageTargetOfPage(target);
    }
  }

  /** Two targets never share a redirect page. */
  lemma HtmlRedirectPageInjective(a: string, b: string)
    requires HtmlRedirectPage(a) == HtmlRedirectPage(b)
    ensures a == b
  {
    PageTargetOfPage(a);
    PageTargetOfPage(b);
  }
}
