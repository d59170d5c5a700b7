/** The invitation card (`components/CardPreview.tsx`): the palette and
    font lookups and, for each of the fourteen layouts, which event fields
    it shows and whether it takes its colours and fonts from the
    customization. The markup itself is not modelled. */
module CardPreview {
  import opened Basics
  import opened Types
  import opened JsStrings

  /** The class names of one palette. */
  datatype Colors = Colors(bg: string, primary: string, accent: string, border: string, dark: string,
                           textLight: string)

  /** The class names of one font choice. */
  datatype Font = Font(head: string, body: string)

  const GrayColors: Colors := Colors("bg-gray-50", "text-gray-900", "bg-black", "border-black", "bg-black", "text-gray-200")

  /** `getColors`: a fixed set per named palette; "default" and any other
      value give the gray/black set. */
  function GetColors(palette: string): (c: Colors)
    ensures palette !in {"ocean", "sunset", "forest", "midnight", "candy"} ==> c == GrayColors
  {
    match palette
    case "ocean" => Colors("bg-blue-50", "text-blue-600", "bg-blue-500", "border-blue-600", "bg-slate-900", "text-blue-100")
    case "sunset" => Colors("bg-orange-50", "text-orange-600", "bg-orange-500", "border-orange-600", "bg-orange-950", "text-orange-100")
    case "forest" => Colors("bg-green-50", "text-green-700", "bg-green-600", "border-green-700", "bg-green-950", "text-green-100")
    case "midnight" => Colors("bg-indigo-50", "text-indigo-800", "bg-indigo-600", "border-indigo-800", "bg-indigo-950", "text-indigo-100")
    case "candy" => Colors("bg-pink-50", "text-pink-600", "bg-pink-500", "border-pink-600", "bg-pink-950", "text-pink-100")
    case _ => GrayColors
  }

  /** The six palettes give six different colour sets. */
  lemma PalettesDistinct(p: Palette, q: Palette)
    requires p != q
    ensures GetColors(PaletteName(p)) != GetColors(PaletteName(q))
  {
  }

  /** `getFont`: classic → serif/sans, mono → mono/mono, playful →
      display/sans; "modern" and any other value → sans/sans. */
  function GetFont(style: string): (f: Font)
    ensures style == "classic" ==> f == Font("font-serif", "font-sans")
    ensures style == "mono" ==> f == Font("font-mono", "font-mono")
    ensures style == "playful" ==> f == Font("font-display", "font-sans")
    ensures style !in {"classic", "mono", "playful"} ==> f == Font("font-sans", "font-sans")
  {
    match style
    case "classic" => Font("font-serif", "font-sans")
    case "mono" => Font("font-mono", "font-mono")
    case "playful" => Font("font-display", "font-sans")
    case _ => Font("font-sans", "font-sans")
  }

  /** The texts a card can show. */
  datatype Field = Title | GuestName | Description | Date | Time | Location | HostName

  /** The fields each layout shows. */
  function Shown(t: TemplateId): set<Field> {
    match t
    case TechNeon => {Title, GuestName, Description, Date, Time, Location}
    case BoldBrutal => {Title, HostName, GuestName, Description, Date, Location}
    case ElegantSerif => {Title, GuestName, Description, Date, Time, Location}
    case RetroVapor => {Title, GuestName, Description, Date, Time, Location}
    case CorporatePro => {Title, HostName, GuestName, Description, Date, Time, Location}
    case LuxeGold => {Title, GuestName, Description, Date, Location}
    case TypoSwiss => {Title, GuestName, Description, Date, Time, Location}
    case AbstractGeo => {Title, GuestName, Description, Date, Time}
    case Y2kAesthetic => {Title, GuestName, Description, Date, Location}
    case PaperCraft => {Title, GuestName, Description, Date, Time, Location}
    case GlitchPunk => {Title, GuestName, Description, Date, Location}
    case NatureSoft => {Title, GuestName, Description, Date, Location}
    case FilmNoir => {Title, GuestName, Description, Date, Location}
    case MinimalPop => {Date, Title, Location, GuestName, Time, HostName}
  }

  /** Whether a layout takes any class from the palette, and from the font
      choice; which roles it takes is not modelled. */
  predicate UsesPalette(t: TemplateId) {
    t !in {LuxeGold, Y2kAesthetic, GlitchPunk, FilmNoir}
  }

  predicate UsesFont(t: TemplateId) {
    t !in {TypoSwiss, GlitchPunk, FilmNoir}
  }

  function FieldText(data: EventData, guestName: string, f: Field): string {
    match f
    case Title => data.title
    case GuestName => guestName
    case Description => data.description
    case Date => data.date
    case Time => data.time
    case Location => data.location
    case HostName => data.hostName
  }

  /** What a rendered card comes down to: its layout, the text of each field
      it shows, the palette and font it was styled with (None when the
      layout ignores them), the TYPO_SWISS date watermark and the
      CORPORATE_PRO host badge. */
  datatype Card = Card(layout: TemplateId, shown: map<Field, string>, colors: Option<Colors>,
                       font: Option<Font>, watermark: Option<string>, badge: Option<string>)

  /** `renderContent`: the layout named by `templateId`, with MINIMAL_POP for
      that name and for any name that is not a template. */
  function Render(data: EventData, guestName: string, templateId: string, customization: Customization)
    : (card: Card)
    ensures TemplateFromName(templateId).Some? ==> card.layout == TemplateFromName(templateId).value
    ensures TemplateFromName(templateId).None? ==> card.layout == MinimalPop
    ensures card.shown.Keys == Shown(card.layout)
    ensures forall f :: f in card.shown ==> card.shown[f] == FieldText(data, guestName, f)
  {
    var t := match TemplateFromName(templateId) case Some(t) => t case None => MinimalPop;
    Card(t, map f | f in Shown(t) :: FieldText(data, guestName, f),
         if UsesPalette(t) then Some(GetColors(customization.colorPalette)) else None,
         if UsesFont(t) then Some(GetFont(customization.fontStyle)) else None,
         if t == TypoSwiss then Some(BeforeFirstSpace(data.date)) else None,
         if t == CorporatePro then Some(FirstChar(data.hostName)) else None)
  }

  /** Every layout shows the title, the guest's name and the date. */
  lemma CoreFieldsAlwaysShown(data: EventData, guestName: string, templateId: string, c: Customization)
    ensures var card := Render(data, guestName, templateId, c);
            Title in card.shown && GuestName in card.shown && Date in card.shown
            && card.shown[Title] == data.title && card.shown[GuestName] == guestName
            && card.shown[Date] == data.date
  {
    var t := Render(data, guestName, templateId, c).layout;
    assert {Title, GuestName, Date} <= Shown(t);
  }

  /** The location is shown by every layout but ABSTRACT_GEO, the
      description by every layout but MINIMAL_POP. */
  lemma LocationAndDescription(t: TemplateId)
    ensures Location in Shown(t) <==> t != AbstractGeo
    ensures Description in Shown(t) <==> t != MinimalPop
  {
  }

  /** An unknown template name renders exactly as MINIMAL_POP. */
  lemma UnknownIsMinimalPop(data: EventData, guestName: string, templateId: string, c: Customization)
    requires TemplateFromName(templateId).None?
    ensures Render(data, guestName, templateId, c) == Render(data, guestName, "minimal_pop", c)
  {
  }

  /** The customization only changes colours and fonts, never the layout or
      what it shows. */
  lemma CustomizationOnlyStyles(data: EventData, guestName: string, templateId: string, c1: Customization,
                                c2: Customization)
    ensures var a, b := Render(data, guestName, templateId, c1), Render(data, guestName, templateId, c2);
            a.(colors := b.colors, font := b.font) == b
  {
  }

  /** GLITCH_PUNK and FILM_NOIR ignore the customization entirely. */
  lemma FixedStyleLayouts(data: EventData, guestName: string, templateId: string, c1: Customization,
                          c2: Customization)
    requires templateId == "glitch_punk" || templateId == "film_noir"
    ensures Render(data, guestName, templateId, c1) == Render(data, guestName, templateId, c2)
  {
  }

  /** The TYPO_SWISS watermark is the date up to its first space; the
      CORPORATE_PRO badge is the host's first character, empty when the
      host name is. */
  lemma WatermarkAndBadge(data: EventData, guestName: string, c: Customization)
    ensures var w := Render(data, guestName, "typo_swiss", c).watermark.value;
            ' ' !in w && w == data.date[..|w|] && (|w| < |data.date| ==> data.date[|w|] == ' ')
    ensures var b := Render(data, guestName, "corporate_pro", c).badge.value;
            (data.hostName == "" ==> b == "") && (data.hostName != "" ==> b == [data.hostName[0]])
  {
  }
}
