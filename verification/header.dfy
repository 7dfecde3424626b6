/** The overlay's header bar (components/Header.tsx): which images the
    close, back and forward buttons show, the title colour, and which
    elements are rendered, left to right. */
module Header {
  import opened Options

  /** The header's content type: icons and title drawn for a dark or a light
      header background scheme. */
  datatype ContentType = Dark | Light

  /** The bundled images (res/images.ts). */
  datatype Image =
    | CloseDark | CloseLight | MenuDark | MenuLight
    | BackDark | BackLight | BackDisabled
    | ForwardDark | ForwardLight | ForwardDisabled

  /** What an image depicts. */
  datatype Glyph = CloseGlyph | MenuGlyph | BackGlyph | ForwardGlyph

  /** A button image: a bundled one, or one supplied by the host. */
  datatype Icon = Bundled(image: Image) | Supplied(source: string)

  /** The theme colours the title may use. */
  datatype Color = DefaultBackground | DarkColor

  /** What the header renders, in order. */
  datatype Element =
    | CloseButton(icon: Icon)
    | BackButton(backImage: Image)
    | ProgressBar
    | Title(color: Color)
    | ForwardButton(forwardImage: Image)
    | MenuButton(menuImage: Image)

  datatype Props = Props(
    contentType: ContentType,
    canGoBack: bool,
    canGoForward: bool,
    navigationVisible: bool,
    closeIcon: Option<string>)

  function GlyphOf(img: Image): Glyph {
    match img
    case CloseDark | CloseLight => CloseGlyph
    case MenuDark | MenuLight => MenuGlyph
    case BackDark | BackLight | BackDisabled => BackGlyph
    case ForwardDark | ForwardLight | ForwardDisabled => ForwardGlyph
  }

  /** The content type an image is drawn for; disabled arrows serve both. */
  function SchemeOf(img: Image): Option<ContentType> {
    match img
    case CloseDark | MenuDark | BackDark | ForwardDark => Some(Dark)
    case CloseLight | MenuLight | BackLight | ForwardLight => Some(Light)
    case BackDisabled | ForwardDisabled => None
  }

  /** The back button's image: greyed out when there is nowhere to go back
      to, otherwise the arrow for the content type. */
  function BackImage(canGoBack: bool, ct: ContentType): (r: Image)
    ensures GlyphOf(r) == BackGlyph
    ensures r == BackDisabled <==> !canGoBack
    ensures canGoBack ==> SchemeOf(r) == Some(ct)
  {
    if !canGoBack then BackDisabled
    else if ct.Light? then BackLight
    else BackDark
  }

  /** The forward button's image, by the same rule keyed on canGoForward. */
  function ForwardImage(canGoForward: bool, ct: ContentType): (r: Image)
    ensures GlyphOf(r) == ForwardGlyph
    ensures r == ForwardDisabled <==> !canGoForward
    ensures canGoForward ==> SchemeOf(r) == Some(ct)
  {
    if !canGoForward then ForwardDisabled
    else if ct.Light? then ForwardLight
    else ForwardDark
  }

  /** The close button's icon: the host's own when given, otherwise the
      bundled cross for the content type. */
  function CloseIcon(closeIcon: Option<string>, ct: ContentType): (r: Icon)
    ensures closeIcon.Some? ==> r == Supplied(closeIcon.value)
    ensures closeIcon.None? ==>
      r.Bundled? && GlyphOf(r.image) == CloseGlyph && SchemeOf(r.image) == Some(ct)
  {
    match closeIcon
    case Some(src) => Supplied(src)
    case None => if ct.Light? then Bundled(CloseLight) else Bundled(CloseDark)
  }

  /** The menu button's image: the dots drawn for the content type. */
  function MenuImage(ct: ContentType): (r: Image)
    ensures GlyphOf(r) == MenuGlyph
    ensures SchemeOf(r) == Some(ct)
  {
    if ct.Light? then MenuLight else MenuDark
  }

  /** The title colour: the default background colour on light content,
      the dark colour otherwise. */
  function TitleColor(ct: ContentType): (r: Color)
    ensures r == DefaultBackground <==> ct == Light
  {
    if ct.Light? then DefaultBackground else DarkColor
  }

  /** The header's elements, left to right. */
  function Render(p: Props): (r: seq<Element>)
    ensures |r| == if p.navigationVisible then 6 else 4
    ensures r[0] == CloseButton(CloseIcon(p.closeIcon, p.contentType))
    ensures r[|r| - 1] == MenuButton(MenuImage(p.contentType))
    ensures p.navigationVisible ==>
      && r[1] == BackButton(BackImage(p.canGoBack, p.contentType))
      && r[4] == ForwardButton(ForwardImage(p.canGoForward, p.contentType))
    ensures Title(TitleColor(p.contentType)) in r
  {
    var back := if p.navigationVisible then [BackButton(BackImage(p.canGoBack, p.contentType))] else [];
    var forward := if p.navigationVisible then [ForwardButton(ForwardImage(p.canGoForward, p.contentType))] else [];
    [CloseButton(CloseIcon(p.closeIcon, p.contentType))]
      + back
      + [ProgressBar, Title(TitleColor(p.contentType))]
      + forward
      + [MenuButton(MenuImage(p.contentType))]
  }

  /** The back and forward buttons are rendered exactly when navigation is
      visible; the close button, title and menu always are. */
  lemma NavigationButtonsIffVisible(p: Props)
    ensures (exists i :: 0 <= i < |Render(p)| && Render(p)[i].BackButton?) <==> p.navigationVisible
    ensures (exists i :: 0 <= i < |Render(p)| && Render(p)[i].ForwardButton?) <==> p.navigationVisible
    ensures MenuButton(MenuImage(p.contentType)) in Render(p) && CloseButton(CloseIcon(p.closeIcon, p.contentType)) in Render(p)
  {
    var r := Render(p);
    if p.navigationVisible {
      assert r[1].BackButton? && r[4].ForwardButton?;
    } else {
      forall i | 0 <= i < |r|
        ensures !r[i].BackButton? && !r[i].ForwardButton?
      {
      }
    }
  }

  /** Every enabled bundled image in the header is drawn for the header's
      content type. */
  lemma ImagesMatchContentType(p: Props)
    ensures forall i :: 0 <= i < |Render(p)| && Render(p)[i].BackButton? && p.canGoBack ==>
      SchemeOf(Render(p)[i].backImage) == Some(p.contentType)
    ensures forall i :: 0 <= i < |Render(p)| && Render(p)[i].ForwardButton? && p.canGoForward ==>
      SchemeOf(Render(p)[i].forwardImage) == Some(p.contentType)
  {
  }
}
