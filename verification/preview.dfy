/**
 * The social preview card: for the selected platform tab, the title,
 * description and image the card shows, each the first defined value of a
 * fallback chain that ends in a literal placeholder.
 */
module Preview {
  import opened Wrappers
  import opened SeoTypes

  /** The platform tabs, in the order the tab bar lists them. */
  datatype Tab = Facebook | X | Mastodon | Discord

  /** `TAB_LABELS`. */
  function TabLabel(tab: Tab): string {
    match tab
    case Facebook => "Facebook"
    case X => "X (Twitter)"
    case Mastodon => "Mastodon"
    case Discord => "Discord"
  }

  const Tabs: seq<Tab> := [Facebook, X, Mastodon, Discord]

  /** The tab shown before the user picks one. */
  const InitialTab: Tab := Facebook

  const PlaceholderImage: string := "https://via.placeholder.com/1200x630"

  /** What the card shows. */
  datatype Card = Card(title: string, description: string, image: string)

  /** `a ?? b`: only an absent value falls through; an empty string is kept. */
  function Coalesce(a: Option<string>, b: Option<string>): (r: Option<string>)
    ensures a.Some? ==> r == a
    ensures a.None? ==> r == b
  {
    if a.Some? then a else b
  }

  /** A chain ending in a literal: the value if there is one, else the literal. */
  function OrDefault(a: Option<string>, default: string): (r: string)
    ensures a.Some? ==> r == a.value
    ensures a.None? ==> r == default
  {
    if a.Some? then a.value else default
  }

  /**
   * The card for a tab. The X tab prefers the Twitter tags, then Open Graph,
   * then the page's own title and description; every other tab prefers Open
   * Graph, then the page's own, and takes the Twitter image only when there
   * is no Open Graph image.
   */
  function CardFor(tab: Tab, meta: BaseMeta, og: OpenGraphMeta, twitter: TwitterMeta): Card {
    if tab == X then
      Card(OrDefault(Chain([twitter.title, og.title, meta.title]), "Título para X/Twitter"),
           OrDefault(Chain([twitter.description, og.description, meta.description]), "Descrição para X/Twitter"),
           OrDefault(Chain([twitter.image, og.image]), PlaceholderImage))
    else
      Card(OrDefault(Chain([og.title, meta.title]), "Título para " + TabLabel(tab)),
           OrDefault(Chain([og.description, meta.description]), "Descrição para " + TabLabel(tab)),
           OrDefault(Chain([og.image, twitter.image]), PlaceholderImage))
  }

  /**
   * The reference reading of a fallback chain: the value of the first
   * defined option, or the default when none is defined.
   */
  predicate FirstDefined(options: seq<Option<string>>, default: string, r: string) {
    || (exists k :: 0 <= k < |options| && options[k].Some? && r == options[k].value
                    && forall j :: 0 <= j < k ==> options[j].None?)
    || ((forall j :: 0 <= j < |options| ==> options[j].None?) && r == default)
  }

  /** Nested `??` with a final literal picks the first defined option. */
  lemma {:induction false} ChainIsFirstDefined(options: seq<Option<string>>, default: string)
    ensures FirstDefined(options, default, OrDefault(Chain(options), default))
  {
    if options != [] {
      ChainIsFirstDefined(options[1..], default);
      var r := OrDefault(Chain(options), default);
      if options[0].Some? {
        assert 0 <= 0 < |options| && options[0].Some? && r == options[0].value;
      } else if exists k :: 0 <= k < |options[1..]| && options[1..][k].Some? && r == options[1..][k].value
                          && forall j :: 0 <= j < k ==> options[1..][j].None? {
        var k :| 0 <= k < |options[1..]| && options[1..][k].Some? && r == options[1..][k].value
                 && forall j :: 0 <= j < k ==> options[1..][j].None?;
        assert options[k + 1] == options[1..][k];
        forall j | 0 <= j < k + 1 ensures options[j].None? {
          if j > 0 { assert options[j] == options[1..][j - 1]; }
        }
      } else {
        forall j | 0 <= j < |options| ensures options[j].None? {
          if j > 0 { assert options[j] == options[1..][j - 1]; }
        }
      }
    }
  }

  /** `o1 ?? o2 ?? …`, right-nested as JavaScript parses it. */
  function Chain(options: seq<Option<string>>): Option<string> {
    if options == [] then None else Coalesce(options[0], Chain(options[1..]))
  }

  /**
   * On the X tab the title, description and image follow the chains
   * Twitter, Open Graph, page, placeholder (the image without the page step).
   */
  lemma XTabChains(meta: BaseMeta, og: OpenGraphMeta, twitter: TwitterMeta)
    ensures var card := CardFor(X, meta, og, twitter);
      && FirstDefined([twitter.title, og.title, meta.title], "Título para X/Twitter", card.title)
      && FirstDefined([twitter.description, og.description, meta.description], "Descrição para X/Twitter", card.description)
      && FirstDefined([twitter.image, og.image], PlaceholderImage, card.image)
  {
    ChainIsFirstDefined([twitter.title, og.title, meta.title], "Título para X/Twitter");
    ChainIsFirstDefined([twitter.description, og.description, meta.description], "Descrição para X/Twitter");
    ChainIsFirstDefined([twitter.image, og.image], PlaceholderImage);
  }

  /**
   * On the other tabs the title and description follow Open Graph, page,
   * "… para <label>", and the image prefers Open Graph over Twitter.
   */
  lemma OtherTabChains(tab: Tab, meta: BaseMeta, og: OpenGraphMeta, twitter: TwitterMeta)
    requires tab != X
    ensures var card := CardFor(tab, meta, og, twitter);
      && FirstDefined([og.title, meta.title], "Título para " + TabLabel(tab), card.title)
      && FirstDefined([og.description, meta.description], "Descrição para " + TabLabel(tab), card.description)
      && FirstDefined([og.image, twitter.image], PlaceholderImage, card.image)
  {
    ChainIsFirstDefined([og.title, meta.title], "Título para " + TabLabel(tab));
    ChainIsFirstDefined([og.description, meta.description], "Descrição para " + TabLabel(tab));
    ChainIsFirstDefined([og.image, twitter.image], PlaceholderImage);
  }

  /** Off the X tab, the Twitter title and description are never consulted. */
  lemma OtherTabsIgnoreTwitterText(tab: Tab, meta: BaseMeta, og: OpenGraphMeta, t1: TwitterMeta, t2: TwitterMeta)
    requires tab != X && t1.image == t2.image
    ensures CardFor(tab, meta, og, t1) == CardFor(tab, meta, og, t2)
  {
  }

  /**
   * The image source order flips between tabs: when both images are set,
   * X shows the Twitter image and every other tab the Open Graph one.
   */
  lemma ImagePreferenceFlips(tab: Tab, meta: BaseMeta, og: OpenGraphMeta, twitter: TwitterMeta)
    requires og.image.Some? && twitter.image.Some?
    ensures CardFor(tab, meta, og, twitter).image == (if tab == X then twitter.image.value else og.image.value)
  {
  }

  /**
   * Fed what the extractor produces, where a present field is never empty,
   * the card never shows an empty title, description or image.
   */
  lemma CleanInputsGiveFullCard(tab: Tab, meta: BaseMeta, og: OpenGraphMeta, twitter: TwitterMeta)
    requires CleanField(meta.title) && CleanField(meta.description)
    requires CleanField(og.title) && CleanField(og.description) && CleanField(og.image)
    requires CleanField(twitter.title) && CleanField(twitter.description) && CleanField(twitter.image)
    ensures var card := CardFor(tab, meta, og, twitter);
      card.title != "" && card.description != "" && card.image != ""
  {
    if tab == X {
      ChainNonEmpty([twitter.title, og.title, meta.title], "Título para X/Twitter");
      ChainNonEmpty([twitter.description, og.description, meta.description], "Descrição para X/Twitter");
      ChainNonEmpty([twitter.image, og.image], PlaceholderImage);
    } else {
      ChainNonEmpty([og.title, meta.title], "Título para " + TabLabel(tab));
      ChainNonEmpty([og.description, meta.description], "Descrição para " + TabLabel(tab));
      ChainNonEmpty([og.image, twitter.image], PlaceholderImage);
    }
  }

  /** A chain of non-empty options ending in a non-empty literal yields a non-empty string. */
  lemma ChainNonEmpty(options: seq<Option<string>>, default: string)
    requires default != ""
    requires forall o :: o in options ==> CleanField(o)
    ensures OrDefault(Chain(options), default) != ""
  {
    ChainIsFirstDefined(options, default);
    var r := OrDefault(Chain(options), default);
    if exists k :: 0 <= k < |options| && options[k].Some? && r == options[k].value {
      var k :| 0 <= k < |options| && options[k].Some? && r == options[k].value;
      assert options[k] in options;
    }
  }

  /** The tab bar lists every tab once, the initial tab among them, and no two tabs share a label. */
  lemma TabsAreComplete(tab: Tab, other: Tab)
    ensures tab in Tabs && InitialTab in Tabs
    ensures TabLabel(tab) == TabLabel(other) ==> tab == other
  {
    assert TabLabel(tab)[0] != TabLabel(other)[0] || tab == other;
  }
}
