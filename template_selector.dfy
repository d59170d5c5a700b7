/** The style picker (`components/TemplateSelector.tsx`): the template,
    palette and font catalogues, the tiles with their micro previews and
    the customization updates. */
module TemplateSelector {
  import opened Types
  import CardPreview

  datatype TemplateEntry = TemplateEntry(id: TemplateId, name: string, description: string, previewColor: string)

  /** The fourteen templates, in the order the grid shows them. */
  const Catalogue: seq<TemplateEntry> := [
    TemplateEntry(MinimalPop, "Minimal Pop", "Clean, modern, and playful.", "bg-white"),
    TemplateEntry(BoldBrutal, "Bold Brutal", "High contrast, neo-brutalist style.", "bg-if-yellow"),
    TemplateEntry(TechNeon, "Tech Neon", "Dark mode cyber aesthetics.", "bg-slate-900"),
    TemplateEntry(ElegantSerif, "Elegant Serif", "Classic sophistication.", "bg-stone-50"),
    TemplateEntry(RetroVapor, "Retro Vapor", "80s gradient vibes.", "bg-purple-100"),
    TemplateEntry(CorporatePro, "Corporate Pro", "Trustworthy and professional.", "bg-blue-50"),
    TemplateEntry(LuxeGold, "Luxe Gold", "Premium black and gold.", "bg-black"),
    TemplateEntry(TypoSwiss, "Typo Swiss", "Grid-based typography.", "bg-red-50"),
    TemplateEntry(AbstractGeo, "Abstract Geo", "Geometric art patterns.", "bg-emerald-50"),
    TemplateEntry(NatureSoft, "Nature Soft", "Organic curves and earth tones.", "bg-stone-100"),
    TemplateEntry(GlitchPunk, "Glitch Punk", "Distorted digital chaos.", "bg-neutral-900"),
    TemplateEntry(FilmNoir, "Film Noir", "Cinematic monochrome.", "bg-gray-200"),
    TemplateEntry(Y2kAesthetic, "Y2K Aesthetic", "Early 2000s chrome & plastic.", "bg-pink-100"),
    TemplateEntry(PaperCraft, "Paper Craft", "Tactile paper texture look.", "bg-orange-50")]

  datatype PaletteOption = PaletteOption(id: string, name: string, swatch: string)

  const PaletteOptions: seq<PaletteOption> := [
    PaletteOption("default", "Original", "bg-gray-200"),
    PaletteOption("ocean", "Ocean", "bg-blue-400"),
    PaletteOption("sunset", "Sunset", "bg-orange-400"),
    PaletteOption("forest", "Forest", "bg-green-600"),
    PaletteOption("midnight", "Midnight", "bg-indigo-900"),
    PaletteOption("candy", "Candy", "bg-pink-400")]

  datatype FontOption = FontOption(id: string, name: string)

  const FontOptions: seq<FontOption> := [
    FontOption("modern", "Modern Sans"),
    FontOption("classic", "Classic Serif"),
    FontOption("mono", "Tech Mono"),
    FontOption("playful", "Playful")]

  /** The position of each template in the grid. */
  function Slot(t: TemplateId): nat {
    match t
    case MinimalPop => 0 case BoldBrutal => 1 case TechNeon => 2 case ElegantSerif => 3
    case RetroVapor => 4 case CorporatePro => 5 case LuxeGold => 6 case TypoSwiss => 7
    case AbstractGeo => 8 case NatureSoft => 9 case GlitchPunk => 10 case FilmNoir => 11
    case Y2kAesthetic => 12 case PaperCraft => 13
  }

  /** The catalogue lists every template exactly once. */
  lemma CatalogueIsComplete()
    ensures |Catalogue| == 14
    ensures forall t: TemplateId :: Slot(t) < |Catalogue| && Catalogue[Slot(t)].id == t
    ensures forall i, j :: 0 <= i < j < |Catalogue| ==> Catalogue[i].id != Catalogue[j].id
  {
    forall i | 0 <= i < |Catalogue| ensures Slot(Catalogue[i].id) == i {
      if i < 7 {
        assert i == 0 || i == 1 || i == 2 || i == 3 || i == 4 || i == 5 || i == 6;
      } else {
        assert i == 7 || i == 8 || i == 9 || i == 10 || i == 11 || i == 12 || i == 13;
      }
    }
  }

  /** The palette buttons offer exactly the six palettes and the font
      buttons exactly the four font styles, each once. */
  lemma OptionsAreTheEnumerations()
    ensures |PaletteOptions| == |AllPalettes|
    ensures forall i :: 0 <= i < |PaletteOptions| ==> PaletteOptions[i].id == PaletteName(AllPalettes[i])
    ensures forall p: Palette :: p in AllPalettes
    ensures |FontOptions| == |AllFontStyles|
    ensures forall i :: 0 <= i < |FontOptions| ==> FontOptions[i].id == FontStyleName(AllFontStyles[i])
    ensures forall f: FontStyle :: f in AllFontStyles
  {
    forall p: Palette ensures p in AllPalettes {
      match p
      case DefaultPalette => assert AllPalettes[0] == p;
      case Ocean => assert AllPalettes[1] == p;
      case Sunset => assert AllPalettes[2] == p;
      case Forest => assert AllPalettes[3] == p;
      case Midnight => assert AllPalettes[4] == p;
      case Candy => assert AllPalettes[5] == p;
    }
    forall f: FontStyle ensures f in AllFontStyles {
      match f
      case ModernFont => assert AllFontStyles[0] == f;
      case ClassicFont => assert AllFontStyles[1] == f;
      case MonoFont => assert AllFontStyles[2] == f;
      case PlayfulFont => assert AllFontStyles[3] == f;
    }
  }

  /** Picking a palette changes only the palette. */
  function WithPalette(c: Customization, id: string): (r: Customization)
    ensures r.colorPalette == id && r.fontStyle == c.fontStyle
  {
    c.(colorPalette := id)
  }

  /** Picking a font changes only the font style. */
  function WithFont(c: Customization, id: string): (r: Customization)
    ensures r.fontStyle == id && r.colorPalette == c.colorPalette
  {
    c.(fontStyle := id)
  }

  /** One tile of the grid: its entry, whether it is marked selected, and
      its micro preview. */
  datatype Tile = Tile(entry: TemplateEntry, selected: bool, preview: CardPreview.Card)

  function Tiles(data: EventData, selected: TemplateId, current: Customization): (r: seq<Tile>)
    ensures |r| == |Catalogue|
    ensures forall i :: 0 <= i < |r| ==> r[i].entry == Catalogue[i] && (r[i].selected <==> Catalogue[i].id == selected)
  {
    seq(|Catalogue|, i requires 0 <= i < |Catalogue| =>
      Tile(Catalogue[i], Catalogue[i].id == selected,
           CardPreview.Render(data, "Guest", TemplateName(Catalogue[i].id), DefaultCustomization)))
  }

  /** Exactly one tile is marked: the selected template's. */
  lemma TilesMarkOne(data: EventData, selected: TemplateId, c: Customization)
    ensures var r := Tiles(data, selected, c);
            0 <= Slot(selected) < |r| && r[Slot(selected)].selected
            && (forall i :: 0 <= i < |r| && r[i].selected ==> i == Slot(selected))
  {
    CatalogueIsComplete();
  }

  /** The tiles do not depend on the current customization. */
  lemma TilesIgnoreCustomization(data: EventData, selected: TemplateId, c1: Customization, c2: Customization)
    ensures Tiles(data, selected, c1) == Tiles(data, selected, c2)
  {
  }

  /** Every micro preview is the template rendered for the guest "Guest" in
      the default palette and modern font. */
  lemma TilePreviewUsesDefaults(data: EventData, selected: TemplateId, c: Customization, i: nat)
    requires i < |Catalogue|
    ensures var card := Tiles(data, selected, c)[i].preview;
            card == CardPreview.Render(data, "Guest", TemplateName(Catalogue[i].id), DefaultCustomization)
            && CardPreview.GuestName in card.shown && card.shown[CardPreview.GuestName] == "Guest"
  {
    CardPreview.CoreFieldsAlwaysShown(data, "Guest", TemplateName(Catalogue[i].id), DefaultCustomization);
  }
}
