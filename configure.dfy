/** The configuration popup that the extension's `configure` action opens
    (js/index.js): its URL, derived from the page's own address. */
module Configure {
  import opened Text

  const DialogPage := "dialog.html"

  /** The popup URL: the current address up to and including its last '/',
      followed by the dialog page. An address without '/' contributes nothing. */
  function PopupUrl(href: string): (url: string)
    ensures |url| >= |DialogPage| && url[|url| - |DialogPage|..] == DialogPage
    ensures var dir := url[..|url| - |DialogPage|];
      && dir <= href
      && (dir == [] || dir[|dir| - 1] == '/')
      && (forall k :: |dir| <= k < |href| ==> href[k] != '/')
  {
    href[..LastIndexOf(href, '/') + 1] + DialogPage
  }

  /** The directory part is determined by the address: any prefix ending in '/'
      (or empty) after which the address holds no '/' is that of `PopupUrl`. */
  lemma {:induction false} PopupDirectoryUnique(href: string, dir: string)
    requires dir <= href
    requires dir == [] || dir[|dir| - 1] == '/'
    requires forall k :: |dir| <= k < |href| ==> href[k] != '/'
    ensures PopupUrl(href) == dir + DialogPage
  {
    var n := LastIndexOf(href, '/') + 1;
    assert href[..n] == dir;
  }
}
