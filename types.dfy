/** The shared data model of the application (`types.ts`). String-valued
    unions become datatypes with a `Name` (the wire value) and a `FromName`
    parser; records that arrive as JSON keep their string fields. */
module Types {
  import opened Basics

  /** `EventData.tone`: the four legal values. */
  datatype Tone = Formal | Casual | Playful | Tech

  function ToneName(t: Tone): string {
    match t
    case Formal => "formal"
    case Casual => "casual"
    case Playful => "playful"
    case Tech => "tech"
  }

  const AllTones: seq<Tone> := [Formal, Casual, Playful, Tech]

  /** The fields of an event as they travel in JSON. `tone` is kept as the
      string that arrived; `ToneName` gives the legal ones. */
  datatype EventData = EventData(
    title: string,
    date: string,
    time: string,
    location: string,
    description: string,
    tone: string,
    hostName: string)

  datatype GuestStatus = Pending | Generated

  datatype Guest = Guest(id: string, name: string, email: string, status: GuestStatus)

  /** `TemplateId`: the fourteen card templates. */
  datatype TemplateId =
    | MinimalPop | TechNeon | ElegantSerif | BoldBrutal | RetroVapor
    | CorporatePro | LuxeGold | AbstractGeo | TypoSwiss | NatureSoft
    | GlitchPunk | FilmNoir | Y2kAesthetic | PaperCraft

  function TemplateName(t: TemplateId): string {
    match t
    case MinimalPop => "minimal_pop"
    case TechNeon => "tech_neon"
    case ElegantSerif => "elegant_serif"
    case BoldBrutal => "bold_brutal"
    case RetroVapor => "retro_vapor"
    case CorporatePro => "corporate_pro"
    case LuxeGold => "luxe_gold"
    case AbstractGeo => "abstract_geo"
    case TypoSwiss => "typo_swiss"
    case NatureSoft => "nature_soft"
    case GlitchPunk => "glitch_punk"
    case FilmNoir => "film_noir"
    case Y2kAesthetic => "y2k_aesthetic"
    case PaperCraft => "paper_craft"
  }

  /** The enum members in declaration order. */
  const AllTemplates: seq<TemplateId> := [
    MinimalPop, TechNeon, ElegantSerif, BoldBrutal, RetroVapor,
    CorporatePro, LuxeGold, AbstractGeo, TypoSwiss, NatureSoft,
    GlitchPunk, FilmNoir, Y2kAesthetic, PaperCraft]

  /** The template whose wire value is `s`, if any. */
  function TemplateFromName(s: string): (r: Option<TemplateId>)
    ensures r.Some? ==> TemplateName(r.value) == s
    ensures r.None? ==> forall t :: TemplateName(t) != s
  {
    if s == "minimal_pop" then Some(MinimalPop)
    else if s == "tech_neon" then Some(TechNeon)
    else if s == "elegant_serif" then Some(ElegantSerif)
    else if s == "bold_brutal" then Some(BoldBrutal)
    else if s == "retro_vapor" then Some(RetroVapor)
    else if s == "corporate_pro" then Some(CorporatePro)
    else if s == "luxe_gold" then Some(LuxeGold)
    else if s == "abstract_geo" then Some(AbstractGeo)
    else if s == "typo_swiss" then Some(TypoSwiss)
    else if s == "nature_soft" then Some(NatureSoft)
    else if s == "glitch_punk" then Some(GlitchPunk)
    else if s == "film_noir" then Some(FilmNoir)
    else if s == "y2k_aesthetic" then Some(Y2kAesthetic)
    else if s == "paper_craft" then Some(PaperCraft)
    else None
  }

  /** Parsing a template's own name gives it back, so names are injective. */
  lemma TemplateNameRoundTrip(t: TemplateId)
    ensures TemplateFromName(TemplateName(t)) == Some(t)
  {
  }

  /** `TemplateCustomization.colorPalette`. */
  datatype Palette = DefaultPalette | Ocean | Sunset | Forest | Midnight | Candy

  function PaletteName(p: Palette): string {
    match p
    case DefaultPalette => "default"
    case Ocean => "ocean"
    case Sunset => "sunset"
    case Forest => "forest"
    case Midnight => "midnight"
    case Candy => "candy"
  }

  const AllPalettes: seq<Palette> := [DefaultPalette, Ocean, Sunset, Forest, Midnight, Candy]

  /** `TemplateCustomization.fontStyle`. */
  datatype FontStyle = ModernFont | ClassicFont | MonoFont | PlayfulFont

  function FontStyleName(f: FontStyle): string {
    match f
    case ModernFont => "modern"
    case ClassicFont => "classic"
    case MonoFont => "mono"
    case PlayfulFont => "playful"
  }

  const AllFontStyles: seq<FontStyle> := [ModernFont, ClassicFont, MonoFont, PlayfulFont]

  /** The customization record as stored and sent: two wire strings. */
  datatype Customization = Customization(colorPalette: string, fontStyle: string)

  const DefaultCustomization: Customization := Customization("default", "modern")

  datatype AppStep = Analyze | Style | Batch

  /** `User.planDetails` as the client sees it. */
  datatype PlanDetails = PlanDetails(id: string, name: string, maxEvents: int, maxGuestsPerEvent: int)

  /** `User` as the client holds it; `planDetails` is optional. */
  datatype User = User(id: string, name: string, email: string, plan: string, planDetails: Option<PlanDetails>)

  /** One row of the dashboard's event list. */
  datatype Project = Project(id: string, name: string, date: string, guestCount: nat, status: string)
}
