/** The two streaming platforms and the constants chosen per platform. */
module Platforms {
  import opened Geometry

  /** The platform chosen in the start dialog: "bili" or "yt". */
  datatype Platform = Bili | Yt

  datatype Size = Size(width: nat, height: nat)

  /** The close button's rectangle in overlay-local coordinates. */
  function CloseRect(p: Platform): Rect {
    match p
    case Bili => Rect(249, 0, 45, 29)
    case Yt => Rect(358, 0, 45, 29)
  }

  /** The size the host window is given (and, through it, the overlay). */
  function AppSize(p: Platform): Size {
    match p
    case Bili => Size(300, 605)
    case Yt => Size(410, 575)
  }

  const BiliHome: string := "https://www.bilibili.com"

  /** The page the browser is opened on: Bilibili's home page (so that
      the session cookie can be set for its domain) or the live URL itself. */
  function AppUrl(p: Platform, url: string): string {
    match p
    case Bili => BiliHome
    case Yt => url
  }

  /** The configuration key under which a platform's live URL is saved. */
  function ConfigKey(p: Platform): string {
    match p
    case Bili => "bili_live_url"
    case Yt => "yt_live_url"
  }

  /** The close button lies entirely inside the overlay, which has the size
      of the host window for that platform. */
  lemma CloseButtonInsideOverlay(p: Platform)
    ensures 0 <= CloseRect(p).left && CloseRect(p).left + CloseRect(p).width <= AppSize(p).width
    ensures 0 <= CloseRect(p).top && CloseRect(p).top + CloseRect(p).height <= AppSize(p).height
  {
  }

  /** Each platform saves its URL under its own key. */
  lemma ConfigKeysDistinct(p: Platform, q: Platform)
    ensures ConfigKey(p) == ConfigKey(q) <==> p == q
  {
    assert ConfigKey(Bili)[0] != ConfigKey(Yt)[0];
  }

  /** YouTube opens the entered URL directly; Bilibili always opens its home
      page first, whatever URL was entered. */
  lemma StartPages(url: string, other: string)
    ensures AppUrl(Yt, url) == url
    ensures AppUrl(Bili, url) == AppUrl(Bili, other) == BiliHome
  {
  }
}
