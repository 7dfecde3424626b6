/** The overlay itself (index.tsx): its defaults, and how it feeds the
    navigation history to the header. */
module Browser {
  import opened Options
  import History
  import Header

  /** The optional props the overlay reads for the header. */
  datatype Config = Config(
    url: string,
    headerContent: Option<Header.ContentType>,
    navigationVisible: Option<bool>,
    closeIcon: Option<string>)

  /** The header content type: "dark" unless configured. */
  function ContentTypeOf(c: Config): (ct: Header.ContentType)
    ensures c.headerContent.None? ==> ct == Header.Dark
    ensures c.headerContent.Some? ==> ct == c.headerContent.value
  {
    c.headerContent.GetOr(Header.Dark)
  }

  /** Whether the navigation buttons are shown: yes unless configured. */
  function NavigationVisibleOf(c: Config): (v: bool)
    ensures c.navigationVisible.None? ==> v
    ensures c.navigationVisible.Some? ==> v == c.navigationVisible.value
  {
    c.navigationVisible.GetOr(true)
  }

  /** The header props for the current history. */
  function HeaderProps(c: Config, h: History.History): (p: Header.Props)
    ensures p.canGoBack <==> |h.back| > 0
    ensures p.canGoForward <==> |h.forward| > 0
    ensures p.contentType == ContentTypeOf(c) && p.navigationVisible == NavigationVisibleOf(c)
    ensures p.closeIcon == c.closeIcon
  {
    Header.Props(ContentTypeOf(c), History.CanGoBack(h), History.CanGoForward(h),
                 NavigationVisibleOf(c), c.closeIcon)
  }

  /** The back arrow is greyed out exactly when pressing it does nothing;
      likewise the forward arrow. */
  lemma ArrowsDisabledIffInert(c: Config, h: History.History)
    ensures Header.BackImage(HeaderProps(c, h).canGoBack, ContentTypeOf(c)) == Header.BackDisabled
        <==> History.GoBack(h).state == h
    ensures Header.ForwardImage(HeaderProps(c, h).canGoForward, ContentTypeOf(c)) == Header.ForwardDisabled
        <==> History.GoForward(h).state == h
  {
  }

  /** After closing, both arrows are greyed out. */
  lemma ClosedHeaderArrowsDisabled(c: Config, h: History.History)
    ensures var p := HeaderProps(c, History.Close(h, c.url));
      Header.BackImage(p.canGoBack, p.contentType) == Header.BackDisabled
      && Header.ForwardImage(p.canGoForward, p.contentType) == Header.ForwardDisabled
  {
  }
}
