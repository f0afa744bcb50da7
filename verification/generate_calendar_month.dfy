/**
  The month generator (`generate-calendar-month/index.ts`): given a generation
  and a month, it renders that month's scene prompt from the stored dog
  descriptions and artist style, asks the image API for a picture, downloads
  it, stores it under a per-(generation, month) key and records a `calendars`
  row. Any failure ends the request in the 500 branch.
 */
module GenerateCalendarMonth {
  import opened Strings
  import opened Outcomes
  import opened Placeholders
  import opened Platform
  import GenerateMonthPrompts
  import ProcessCalendarPrompts

  // ---------------------------------------------------------------------------
  // The two inlined template tables

  /** Single-dog template: artist name, style, artist name again, the
      capitalised dog token, and the style once more. */
  const SingleDogSkeleton: seq<Token> :=
    [ArtistName, ArtistStyleCapital, ArtistName, DogDescriptionCapital, ArtistStyleCapital]

  /** Multi-dog template: artist name, the lower-case dog token, then the
      artist description. */
  const MultiDogSkeleton: seq<Token> := [ArtistName, DogDescriptionLower, ArtistDescription]

  /** `calendarPrompts` (single dog), January to December, by skeleton. */
  const SingleDogSkeletons: seq<seq<Token>> := [
    SingleDogSkeleton, SingleDogSkeleton, SingleDogSkeleton, SingleDogSkeleton,
    SingleDogSkeleton, SingleDogSkeleton, SingleDogSkeleton, SingleDogSkeleton,
    SingleDogSkeleton, SingleDogSkeleton, SingleDogSkeleton, SingleDogSkeleton
  ]

  /** `multiDogCalendarPrompts`, January to December, by skeleton. */
  const MultiDogSkeletons: seq<seq<Token>> := [
    MultiDogSkeleton, MultiDogSkeleton, MultiDogSkeleton, MultiDogSkeleton,
    MultiDogSkeleton, MultiDogSkeleton, MultiDogSkeleton, MultiDogSkeleton,
    MultiDogSkeleton, MultiDogSkeleton, MultiDogSkeleton, MultiDogSkeleton
  ]

  /** The handler's two template arrays and its artist-description table. */
  datatype PromptTables = PromptTables(
    single: seq<Template>,
    multi: seq<Template>,
    descriptions: map<string, string>)

  /** The arrays have twelve well-formed templates each, with the recorded
      skeletons. (The description table is `ArtistDescriptions`; the proofs
      about rendering hold for any table.) */
  predicate Conforms(tables: PromptTables)
  {
    && |tables.single| == |SingleDogSkeletons|
    && |tables.multi| == |MultiDogSkeletons|
    && (forall m :: 0 <= m < |tables.single| ==>
          WellFormed(tables.single[m]) && Slots(tables.single[m]) == SingleDogSkeletons[m])
    && (forall m :: 0 <= m < |tables.multi| ==>
          WellFormed(tables.multi[m]) && Slots(tables.multi[m]) == MultiDogSkeletons[m])
  }

  // ---------------------------------------------------------------------------
  // Artist descriptions

  const FallbackDescription: string := "artistic style with expressive brushwork and rich colors"

  /** `artistDescriptions` */
  const ArtistDescriptions: map<string, string> := map[
    "Impressionist" := "loose, expressive brushstrokes and soft, dappled light filtering through trees, creating a dreamy atmosphere with warm earth tones and cool shadows",
    "Cubist" := "geometric forms and fragmented perspectives, breaking down the landscape into angular planes and bold, contrasting colors",
    "Pop Art" := "vibrant, saturated colors and bold outlines, with high contrast and graphic elements that make the scene pop with energy",
    "Watercolor" := "soft, flowing washes of color that blend seamlessly, with delicate transparency and gentle gradations",
    "Renaissance" := "precise detail and balanced composition, with rich, deep colors and masterful use of light and shadow",
    "Modern" := "clean lines and simplified forms, with a focus on composition and color relationships over fine detail",
    "Minimalist" := "simple, clean composition with essential elements only, using a limited color palette and plenty of negative space",
    "Abstract" := "non-representational forms and bold color combinations, emphasizing emotion and movement over realistic depiction",
    "Surrealist" := "dreamlike quality with unexpected elements and mysterious atmosphere, blending reality with imagination",
    "Cartoon" := "stylized, exaggerated features with bright, cheerful colors and a playful, animated quality",
    "Van Gogh" := "Van Gogh's vivid colors, defined and expressive brushstrokes, and swirling textures"
  ]

  /** `artistDescriptions[style] || fallback`: an empty entry would also fall back. */
  function DescriptionOf(descriptions: map<string, string>, style: string): (r: string)
    ensures r != ""
    ensures r == FallbackDescription || (style in descriptions && r == descriptions[style])
  {
    if style in descriptions && descriptions[style] != ""
    then descriptions[style]
    else FallbackDescription
  }

  /** The lookup never fails: a listed style gives its own entry (none is empty)
      and every other style gives the fixed fallback phrase. */
  lemma ArtistDescriptionTotal(style: string)
    ensures style in ArtistDescriptions ==> DescriptionOf(ArtistDescriptions, style) == ArtistDescriptions[style]
    ensures style !in ArtistDescriptions ==> DescriptionOf(ArtistDescriptions, style) == FallbackDescription
    ensures DescriptionOf(ArtistDescriptions, style) != ""
  {
  }

  /** The styles the table describes, in its order. */
  const StyleNames: seq<string> := [
    "Impressionist", "Cubist", "Pop Art", "Watercolor", "Renaissance", "Modern",
    "Minimalist", "Abstract", "Surrealist", "Cartoon", "Van Gogh"
  ]

  /** The table describes exactly eleven distinct styles. */
  lemma ElevenStyles()
    ensures |StyleNames| == 11
    ensures forall i, j :: 0 <= i < j < |StyleNames| ==> StyleNames[i] != StyleNames[j]
    ensures forall s :: s in ArtistDescriptions <==> s in StyleNames
  {
  }

  // ---------------------------------------------------------------------------
  // Prompt rendering

  /** `Array.isArray(d) ? d : [d]` */
  function Normalise(d: StoredDescriptions): seq<JsString>
  {
    match d
    case Listed(items) => items
    case Single(item) => [item]
  }

  /** `descriptions.join(' and ')` */
  function DogText(descriptions: seq<JsString>): string
  {
    JoinValues(descriptions, " and ")
  }

  /** The six global replacements, in the handler's order. */
  function FillPlaceholders(template: string, style: string, dogs: string, artistDesc: string): string
  {
    var s1 := ReplaceAll(template, Spelling(ArtistName), style);
    var s2 := ReplaceAll(s1, Spelling(ArtistStyleLower), style);
    var s3 := ReplaceAll(s2, Spelling(ArtistStyleCapital), style);
    var s4 := ReplaceAll(s3, Spelling(DogDescriptionLower), dogs);
    var s5 := ReplaceAll(s4, Spelling(DogDescriptionCapital), dogs);
    ReplaceAll(s5, Spelling(ArtistDescription), artistDesc)
  }

  /** The value each token stands for: the style name for the three artist
      spellings, the joined dogs for the two dog spellings, the looked-up
      description for `[artist description]`. */
  function ValueOf(k: Token, style: string, dogs: string, artistDesc: string): string
  {
    match k
    case ArtistName => style
    case ArtistStyleLower => style
    case ArtistStyleCapital => style
    case DogDescriptionLower => dogs
    case DogDescriptionCapital => dogs
    case ArtistDescription => artistDesc
  }

  function InstantiatePiece(p: Piece, style: string, dogs: string, artistDesc: string): Piece
  {
    match p
    case Text(_) => p
    case Slot(k) => Text(ValueOf(k, style, dogs, artistDesc))
  }

  /** The template with every slot turned into the prose of its value. */
  function Instantiate(t: Template, style: string, dogs: string, artistDesc: string): (r: Template)
    ensures |r| == |t|
    ensures forall i :: 0 <= i < |t| ==> r[i] == InstantiatePiece(t[i], style, dogs, artistDesc)
  {
    if t == [] then [] else [InstantiatePiece(t[0], style, dogs, artistDesc)] + Instantiate(t[1..], style, dogs, artistDesc)
  }

  predicate BracketFree(style: string, dogs: string, artistDesc: string)
  {
    NoChar(style, '[') && NoChar(dogs, '[') && NoChar(artistDesc, '[')
  }

  /** One replacement of the chain: on a well-formed template it fills the
      token's slots, and prose free of `[` keeps the template well formed. */
  lemma ReplaceStep(t: Template, k: Token, v: string)
    requires WellFormed(t) && NoChar(v, '[')
    ensures ReplaceAll(Flatten(t), Spelling(k), v) == Flatten(Fill(t, k, v))
    ensures WellFormed(Fill(t, k, v))
  {
    ReplaceAllFills(t, k, v);
    FillKeepsShape(t, k, v);
  }

  /**
    On a well-formed template, and for a style name and dog text without `[`,
    the chain of six string replacements substitutes every slot of the
    template by its value and touches nothing else. The artist description
    is inserted last, so it is never rescanned and may hold anything.
   */
  lemma FillPlaceholdersInstantiates(t: Template, style: string, dogs: string, artistDesc: string)
    requires WellFormed(t) && NoChar(style, '[') && NoChar(dogs, '[')
    ensures FillPlaceholders(Flatten(t), style, dogs, artistDesc) == Flatten(Instantiate(t, style, dogs, artistDesc))
  {
    var t1 := Fill(t, ArtistName, style);
    ReplaceStep(t, ArtistName, style);
    var t2 := Fill(t1, ArtistStyleLower, style);
    ReplaceStep(t1, ArtistStyleLower, style);
    var t3 := Fill(t2, ArtistStyleCapital, style);
    ReplaceStep(t2, ArtistStyleCapital, style);
    var t4 := Fill(t3, DogDescriptionLower, dogs);
    ReplaceStep(t3, DogDescriptionLower, dogs);
    var t5 := Fill(t4, DogDescriptionCapital, dogs);
    ReplaceStep(t4, DogDescriptionCapital, dogs);
    ReplaceAllFills(t5, ArtistDescription, artistDesc);
    FillChainInstantiates(t, style, dogs, artistDesc);
  }

  /** The six fills, applied to one piece, turn a slot into its value. */
  lemma FillPieceChain(p: Piece, style: string, dogs: string, artistDesc: string)
    ensures FillPiece(FillPiece(FillPiece(FillPiece(FillPiece(FillPiece(p, ArtistName, style),
              ArtistStyleLower, style), ArtistStyleCapital, style), DogDescriptionLower, dogs),
              DogDescriptionCapital, dogs), ArtistDescription, artistDesc)
            == InstantiatePiece(p, style, dogs, artistDesc)
  {
  }

  /** The six fills together turn every slot into its value. */
  lemma FillChainInstantiates(t: Template, style: string, dogs: string, artistDesc: string)
    ensures Fill(Fill(Fill(Fill(Fill(Fill(t, ArtistName, style), ArtistStyleLower, style),
              ArtistStyleCapital, style), DogDescriptionLower, dogs), DogDescriptionCapital, dogs),
              ArtistDescription, artistDesc)
            == Instantiate(t, style, dogs, artistDesc)
  {
    var t1 := Fill(t, ArtistName, style);
    var t2 := Fill(t1, ArtistStyleLower, style);
    var t3 := Fill(t2, ArtistStyleCapital, style);
    var t4 := Fill(t3, DogDescriptionLower, dogs);
    var t5 := Fill(t4, DogDescriptionCapital, dogs);
    var t6 := Fill(t5, ArtistDescription, artistDesc);
    var r := Instantiate(t, style, dogs, artistDesc);
    forall i | 0 <= i < |t| ensures t6[i] == r[i] {
      assert t6[i] == FillPiece(t5[i], ArtistDescription, artistDesc);
      assert t5[i] == FillPiece(t4[i], DogDescriptionCapital, dogs);
      assert t4[i] == FillPiece(t3[i], DogDescriptionLower, dogs);
      assert t3[i] == FillPiece(t2[i], ArtistStyleCapital, style);
      assert t2[i] == FillPiece(t1[i], ArtistStyleLower, style);
      assert t1[i] == FillPiece(t[i], ArtistName, style);
      FillPieceChain(t[i], style, dogs, artistDesc);
    }
  }

  /** An instantiated template holds no slot. */
  lemma InstantiatedHasNoSlot(t: Template, style: string, dogs: string, artistDesc: string)
    ensures forall k :: Slot(k) !in Instantiate(t, style, dogs, artistDesc)
    ensures Slots(Instantiate(t, style, dogs, artistDesc)) == []
  {
    var r := Instantiate(t, style, dogs, artistDesc);
    forall k ensures Slot(k) !in r {
      forall i | 0 <= i < |r| ensures r[i] != Slot(k) {
        match t[i]
        case Text(_) =>
        case Slot(_) =>
      }
    }
    assert |Slots(r)| == 0 || Slots(r)[0] in Slots(r);
  }

  /**
    After rendering, no placeholder is left: the prompt holds no `[` at all,
    so none of the six spellings occurs, when the three values hold no `[`.
   */
  lemma RenderedPromptHasNoPlaceholder(t: Template, style: string, dogs: string, artistDesc: string)
    requires WellFormed(t) && BracketFree(style, dogs, artistDesc)
    ensures NoChar(FillPlaceholders(Flatten(t), style, dogs, artistDesc), '[')
    ensures forall k :: !Contains(FillPlaceholders(Flatten(t), style, dogs, artistDesc), Spelling(k))
  {
    FillPlaceholdersInstantiates(t, style, dogs, artistDesc);
    var r := Instantiate(t, style, dogs, artistDesc);
    InstantiatedHasNoSlot(t, style, dogs, artistDesc);
    assert WellFormed(r);
    FlattenNoBracket(r);
    var p := FillPlaceholders(Flatten(t), style, dogs, artistDesc);
    forall k ensures !Contains(p, Spelling(k)) {
      SpellingShape(k);
      NoCharExcludes(p, Spelling(k), '[');
    }
  }

  /** Every token the template holds shows up as its value in the rendered prompt. */
  lemma RenderedPromptEmbedsValue(t: Template, style: string, dogs: string, artistDesc: string, k: Token)
    requires WellFormed(t) && NoChar(style, '[') && NoChar(dogs, '[')
    requires Slot(k) in t
    ensures Contains(FillPlaceholders(Flatten(t), style, dogs, artistDesc), ValueOf(k, style, dogs, artistDesc))
  {
    FillPlaceholdersInstantiates(t, style, dogs, artistDesc);
    var i :| 0 <= i < |t| && t[i] == Slot(k);
    var r := Instantiate(t, style, dogs, artistDesc);
    assert r[i] == Text(ValueOf(k, style, dogs, artistDesc));
    PieceOccurs(r, i);
  }

  /** A template without `[artist description]` renders the same whatever the
      artist description is. */
  lemma RenderIgnoresAbsentDescription(t: Template, style: string, dogs: string, d1: string, d2: string)
    requires WellFormed(t) && NoChar(style, '[') && NoChar(dogs, '[')
    requires Slot(ArtistDescription) !in t
    ensures FillPlaceholders(Flatten(t), style, dogs, d1) == FillPlaceholders(Flatten(t), style, dogs, d2)
  {
    FillPlaceholdersInstantiates(t, style, dogs, d1);
    FillPlaceholdersInstantiates(t, style, dogs, d2);
    var r1, r2 := Instantiate(t, style, dogs, d1), Instantiate(t, style, dogs, d2);
    forall i | 0 <= i < |t| ensures r1[i] == r2[i] {
      match t[i]
      case Text(_) =>
      case Slot(k) => assert k != ArtistDescription;
    }
    assert r1 == r2;
  }

  /** The multi-dog set is chosen exactly when the stored value is an array of more than one. */
  predicate IsMultiDog(row: GenerationRow)
  {
    row.dogDescriptions.Listed? && |row.dogDescriptions.items| > 1
  }

  /** `promptsToUse[month - 1]`, where an index outside the array gives nothing. */
  function TemplateFor(tables: PromptTables, row: GenerationRow, month: int): Option<Template>
  {
    var dogs := Normalise(row.dogDescriptions);
    var templates := if |dogs| > 1 then tables.multi else tables.single;
    if 1 <= month <= |templates| then Some(templates[month - 1]) else None
  }

  /** The scene prompt for a month, or nothing when there is no template for it
      (the handler then throws on `.replace` of `undefined`). */
  function ScenePrompt(tables: PromptTables, row: GenerationRow, month: int): Option<string>
  {
    match TemplateFor(tables, row, month)
    case None => None
    case Some(t) =>
      var dogs := Normalise(row.dogDescriptions);
      Some(FillPlaceholders(Flatten(t), row.artistStyle, DogText(dogs), DescriptionOf(tables.descriptions, row.artistStyle)))
  }

  /**
    Month m uses template m - 1 of the multi-dog array when the stored value is
    an array of more than one description, and of the single-dog array
    otherwise: for a non-array value, an empty array or a single description.
    There is a template exactly for months 1 to 12.
   */
  lemma TemplateSelection(tables: PromptTables, row: GenerationRow, month: int)
    requires Conforms(tables)
    ensures TemplateFor(tables, row, month).Some? <==> 1 <= month <= 12
    ensures 1 <= month <= 12 ==>
      TemplateFor(tables, row, month)
        == Some(if IsMultiDog(row) then tables.multi[month - 1] else tables.single[month - 1])
  {
  }

  /** Joined descriptions are free of `[` when each one is. */
  lemma DogTextBracketFree(dogs: seq<JsString>)
    requires forall i :: 0 <= i < |dogs| ==> NoChar(JoinForm(dogs[i]), '[')
    ensures NoChar(DogText(dogs), '[')
  {
    JoinNoChar(JoinForms(dogs), " and ", '[');
  }

  predicate DescriptionsBracketFree(row: GenerationRow)
  {
    && NoChar(row.artistStyle, '[')
    && forall i :: 0 <= i < |Normalise(row.dogDescriptions)| ==>
         NoChar(JoinForm(Normalise(row.dogDescriptions)[i]), '[')
  }

  /**
    With two or more dogs, the month prompt comes from the multi-dog array and
    names every dog (each description, and all of them joined by " and " in
    order), the style name and the style's description.
   */
  lemma MultiDogPromptNamesEveryDog(tables: PromptTables, row: GenerationRow, month: int, i: nat)
    requires Conforms(tables) && 1 <= month <= 12
    requires IsMultiDog(row) && DescriptionsBracketFree(row)
    requires i < |row.dogDescriptions.items|
    ensures ScenePrompt(tables, row, month).Some?
    ensures var p := ScenePrompt(tables, row, month).value;
      && Contains(p, JoinForm(row.dogDescriptions.items[i]))
      && Contains(p, DogText(row.dogDescriptions.items))
      && Contains(p, row.artistStyle)
      && Contains(p, DescriptionOf(tables.descriptions, row.artistStyle))
  {
    var items := row.dogDescriptions.items;
    assert Normalise(row.dogDescriptions) == items;
    var t := tables.multi[month - 1];
    var style, dogs, desc := row.artistStyle, DogText(items), DescriptionOf(tables.descriptions, row.artistStyle);
    assert Slots(t) == MultiDogSkeleton;
    DogTextBracketFree(items);
    var p := FillPlaceholders(Flatten(t), style, dogs, desc);
    assert ScenePrompt(tables, row, month) == Some(p);
    RenderedPromptEmbedsValue(t, style, dogs, desc, DogDescriptionLower);
    RenderedPromptEmbedsValue(t, style, dogs, desc, ArtistName);
    RenderedPromptEmbedsValue(t, style, dogs, desc, ArtistDescription);
    JoinContainsEach(JoinForms(items), " and ", i);
    ContainsTrans(p, dogs, JoinForm(items[i]));
  }

  /**
    With one dog (or a non-array value, or none), the month prompt comes from
    the single-dog array: it names the style and the joined descriptions, keeps
    no placeholder, and does not depend on the style's description, which the
    single-dog templates never mention.
   */
  lemma SingleDogPromptNamesTheDog(tables: PromptTables, row: GenerationRow, month: int)
    requires Conforms(tables) && 1 <= month <= 12
    requires !IsMultiDog(row) && DescriptionsBracketFree(row)
    ensures ScenePrompt(tables, row, month).Some?
    ensures var p := ScenePrompt(tables, row, month).value;
      && Contains(p, DogText(Normalise(row.dogDescriptions)))
      && Contains(p, row.artistStyle)
      && NoChar(p, '[')
  {
    var items := Normalise(row.dogDescriptions);
    var t := tables.single[month - 1];
    var style, dogs, desc := row.artistStyle, DogText(items), DescriptionOf(tables.descriptions, row.artistStyle);
    assert Slots(t) == SingleDogSkeleton;
    DogTextBracketFree(items);
    assert ScenePrompt(tables, row, month) == Some(FillPlaceholders(Flatten(t), style, dogs, desc));
    RenderedPromptEmbedsValue(t, style, dogs, desc, DogDescriptionCapital);
    RenderedPromptEmbedsValue(t, style, dogs, desc, ArtistName);
    RenderIgnoresAbsentDescription(t, style, dogs, desc, "");
    RenderedPromptHasNoPlaceholder(t, style, dogs, "");
  }

  /** The single-dog prompt is the same whatever the description table says. */
  lemma SingleDogPromptIgnoresDescriptions(
    tables: PromptTables, row: GenerationRow, month: int, other: map<string, string>)
    requires Conforms(tables) && 1 <= month <= 12
    requires !IsMultiDog(row) && DescriptionsBracketFree(row)
    ensures ScenePrompt(tables, row, month) == ScenePrompt(tables.(descriptions := other), row, month)
  {
    var items := Normalise(row.dogDescriptions);
    var t := tables.single[month - 1];
    assert Slots(t) == SingleDogSkeleton;
    DogTextBracketFree(items);
    RenderIgnoresAbsentDescription(t, row.artistStyle, DogText(items),
      DescriptionOf(tables.descriptions, row.artistStyle), DescriptionOf(other, row.artistStyle));
  }

  /**
    The replace list covers the tokens of both `calendar-prompts.ts` tables:
    rendering any of their templates with values free of `[` leaves no
    placeholder, and every dog token the template holds becomes the joined
    descriptions.
   */
  lemma RendererCoversPromptFiles(
    generateTable: seq<Template>, processTable: seq<Template>, m: nat,
    style: string, dogs: string, artistDesc: string)
    requires GenerateMonthPrompts.Conforms(generateTable) && ProcessCalendarPrompts.Conforms(processTable)
    requires m < 12 && BracketFree(style, dogs, artistDesc)
    ensures NoChar(FillPlaceholders(Flatten(generateTable[m]), style, dogs, artistDesc), '[')
    ensures NoChar(FillPlaceholders(Flatten(processTable[m]), style, dogs, artistDesc), '[')
    ensures Contains(FillPlaceholders(Flatten(generateTable[m]), style, dogs, artistDesc), dogs)
    ensures Contains(FillPlaceholders(Flatten(processTable[m]), style, dogs, artistDesc), dogs)
  {
    GenerateMonthPrompts.TokenUsage(generateTable, m);
    ProcessCalendarPrompts.TokenUsage(processTable, m);
    RenderedPromptHasNoPlaceholder(generateTable[m], style, dogs, artistDesc);
    RenderedPromptHasNoPlaceholder(processTable[m], style, dogs, artistDesc);
    RenderedPromptEmbedsValue(generateTable[m], style, dogs, artistDesc, DogDescriptionLower);
    if m == 6 {
      RenderedPromptEmbedsValue(processTable[m], style, dogs, artistDesc, DogDescriptionLower);
    } else {
      RenderedPromptEmbedsValue(processTable[m], style, dogs, artistDesc, DogDescriptionCapital);
    }
  }

  // ---------------------------------------------------------------------------
  // Storage key

  /** The handler's own lower-case `monthNames`. */
  const KeyMonthNames: seq<string> := [
    "january", "february", "march", "april", "may", "june",
    "july", "august", "september", "october", "november", "december"
  ]

  /** `monthNames[month - 1]`, which is `undefined` outside the array. */
  function KeyMonthName(month: int): string
  {
    if 1 <= month <= |KeyMonthNames| then KeyMonthNames[month - 1] else "undefined"
  }

  /** `calendar_${generationId}_${monthNames[month - 1]}.png` */
  function FileKey(generationId: string, month: int): string
  {
    "calendar_" + generationId + "_" + (KeyMonthName(month) + ".png")
  }

  /** A string split at its last `_`: the part after it has no `_`. */
  lemma {:induction false} SplitAtLastUnderscore(p: string, x: string, q: string, y: string)
    requires p + "_" + x == q + "_" + y
    requires NoChar(x, '_') && NoChar(y, '_')
    ensures p == q && x == y
  {
    var s := p + "_" + x;
    assert s[|p|] == '_';
    assert (q + "_" + y)[|q|] == '_';
    assert |p| == |q|;
    assert p == s[..|p|];
    assert q == s[..|q|];
    assert x == s[|p| + 1..];
    assert y == (q + "_" + y)[|q| + 1..];
  }

  /** Key month names carry no `_` and no two are equal. */
  lemma KeyMonthNamesShape()
    ensures |KeyMonthNames| == 12
    ensures forall m :: 1 <= m <= 12 ==> NoChar(KeyMonthName(m) + ".png", '_')
    ensures forall m, n :: 1 <= m <= 12 && 1 <= n <= 12 && m != n ==> KeyMonthName(m) != KeyMonthName(n)
  {
    KeyMonthNamesDistinct();
  }

  lemma KeyMonthNamesDistinct()
    ensures forall i, j :: 0 <= i < j < |KeyMonthNames| ==> KeyMonthNames[i] != KeyMonthNames[j]
  {
  }

  /**
    Keys are one-to-one: two (generation, month) pairs with months in 1..12
    share a key only when they are the same pair, whatever the generation ids
    contain. So each month of each generation has its own file.
   */
  lemma FileKeyInjective(a: string, m: int, b: string, n: int)
    requires 1 <= m <= 12 && 1 <= n <= 12
    requires FileKey(a, m) == FileKey(b, n)
    ensures a == b && m == n
  {
    KeyMonthNamesShape();
    SplitAtLastUnderscore("calendar_" + a, KeyMonthName(m) + ".png", "calendar_" + b, KeyMonthName(n) + ".png");
    assert KeyMonthName(m) == (KeyMonthName(m) + ".png")[..|KeyMonthName(m)|];
    assert KeyMonthName(n) == (KeyMonthName(n) + ".png")[..|KeyMonthName(n)|];
    assert a == ("calendar_" + a)[9..];
    assert b == ("calendar_" + b)[9..];
  }

  // ---------------------------------------------------------------------------
  // The request handler

  /** `!data || !data[0] || !data[0].url` rejects the reply; otherwise the URL. */
  function ImageUrlOf(reply: ImageApiReply): (r: Option<string>)
    ensures r.Some? ==> && r.value != ""
                        && DataOf(reply).Some? && |DataOf(reply).value| > 0
                        && DataOf(reply).value[0] == Entry(r)
  {
    match DataOf(reply)
    case None => None
    case Some(entries) =>
      if |entries| == 0 then None
      else match entries[0]
        case NullEntry => None
        case Entry(url) => if url == None || url == Some("") then None else url
  }

  /** What each external call answers, in call order. */
  datatype MonthReplies = MonthReplies(
    fetchOk: bool,           // the generation select reports no error
    imageApi: ImageApiReply, // the image-generation request
    download: DownloadReply, // fetching the generated image
    uploadAccepted: bool,    // the storage upload reports no error
    insertAccepted: bool)    // the `calendars` insert reports no error

  /** The error each `throw` of the handler carries. */
  datatype MonthError =
    | FetchFailed                            // "Could not fetch generation data"
    | NoTemplateForMonth                     // `.replace` of undefined
    | ImageApiThrew                          // the image-generation `fetch` threw
    | ImageApiError(status: int, text: string) // "DALL-E API error: <status> <text>"
    | ImageApiNotJson                        // `dalleResponse.json()` threw
    | InvalidImageApiResponse                // "Invalid response from DALL-E API"
    | DownloadThrew                          // `fetch(url)` itself threw
    | DownloadFailed(status: int)            // "Failed to download image: <status>"
    | UploadFailed
    | InsertFailed

  /** The 200 body: `{success: true, month, generationId, imageUrl}`. */
  datatype MonthSuccess = MonthSuccess(month: int, generationId: string, imageUrl: string)

  /** What one request does: its result, the prompt it sent to the image API, the
      file it stored and the row it inserted. */
  datatype MonthRun = MonthRun(
    result: Result<MonthSuccess, MonthError>,
    prompt: Option<string>,
    upload: Option<(string, Bytes)>,
    insert: Option<CalendarRow>)

  /** The handler's steps as a function of the stored generations and the replies. */
  function RunMonth(
    generations: map<string, GenerationRow>, prefix: string, tables: PromptTables,
    generationId: string, month: int, replies: MonthReplies): MonthRun
  {
    if !replies.fetchOk || generationId !in generations then
      MonthRun(Failure(FetchFailed), None, None, None)
    else match ScenePrompt(tables, generations[generationId], month)
      case None => MonthRun(Failure(NoTemplateForMonth), None, None, None)
      case Some(prompt) =>
        if replies.imageApi.ImageApiUnreachable? then
          MonthRun(Failure(ImageApiThrew), Some(prompt), None, None)
        else if !replies.imageApi.ok then
          MonthRun(Failure(ImageApiError(replies.imageApi.status, replies.imageApi.text)), Some(prompt), None, None)
        else if replies.imageApi.body.NotJson? then
          MonthRun(Failure(ImageApiNotJson), Some(prompt), None, None)
        else if ImageUrlOf(replies.imageApi).None? then
          MonthRun(Failure(InvalidImageApiResponse), Some(prompt), None, None)
        else match replies.download
          case Unreachable => MonthRun(Failure(DownloadThrew), Some(prompt), None, None)
          case Downloaded(ok, status, body) =>
            if !ok then MonthRun(Failure(DownloadFailed(status)), Some(prompt), None, None)
            else
              var key := FileKey(generationId, month);
              if !replies.uploadAccepted then MonthRun(Failure(UploadFailed), Some(prompt), None, None)
              else
                var url := PublicUrl(prefix, key);
                if !replies.insertAccepted then
                  MonthRun(Failure(InsertFailed), Some(prompt), Some((key, body)), None)
                else
                  MonthRun(Success(MonthSuccess(month, generationId, url)), Some(prompt), Some((key, body)),
                           Some(CalendarRow(generationId, url, Some(month))))
  }

  /** Every step's own success condition, in order. */
  predicate AllStepsSucceed(generations: map<string, GenerationRow>, tables: PromptTables,
                            generationId: string, month: int, replies: MonthReplies)
  {
    && replies.fetchOk && generationId in generations
    && ScenePrompt(tables, generations[generationId], month).Some?
    && replies.imageApi.Responded? && replies.imageApi.ok && ImageUrlOf(replies.imageApi).Some?
    && replies.download.Downloaded? && replies.download.ok
    && replies.uploadAccepted && replies.insertAccepted
  }

  /**
    The handler fails fast: a failed fetch, a month without template, an image
    request that throws, a non-ok image API status (carrying status and body
    text), a body that is not JSON, a reply without `data[0].url`, or a download that throws or is not ok each end the request
    with that error before anything is stored. A rejected upload stores
    nothing; a rejected insert leaves the uploaded file behind.
   */
  lemma MonthFailsFast(
    generations: map<string, GenerationRow>, prefix: string, tables: PromptTables,
    generationId: string, month: int, replies: MonthReplies)
    ensures var run := RunMonth(generations, prefix, tables, generationId, month, replies);
      && (run.result.Failure? && run.result.error != InsertFailed ==> run.upload == None && run.insert == None)
      && (run.result.Failure? ==> run.insert == None && HttpStatus(run.result) == 500)
      && (!replies.fetchOk || generationId !in generations ==> run.result == Failure(FetchFailed))
      && (replies.fetchOk && generationId in generations ==>
            var row := generations[generationId];
            && (ScenePrompt(tables, row, month).None? ==> run.result == Failure(NoTemplateForMonth))
            && (ScenePrompt(tables, row, month).Some? ==>
                  && run.prompt == ScenePrompt(tables, row, month)
                  && (replies.imageApi.ImageApiUnreachable? ==> run.result == Failure(ImageApiThrew))
                  && (replies.imageApi.Responded? && !replies.imageApi.ok ==>
                        run.result == Failure(ImageApiError(replies.imageApi.status, replies.imageApi.text)))
                  && (replies.imageApi.Responded? && replies.imageApi.ok && replies.imageApi.body.NotJson? ==>
                        run.result == Failure(ImageApiNotJson))
                  && (replies.imageApi.Responded? && replies.imageApi.ok && replies.imageApi.body.Json?
                      && ImageUrlOf(replies.imageApi).None? ==>
                        run.result == Failure(InvalidImageApiResponse))
                  && (replies.imageApi.Responded? && replies.imageApi.ok && ImageUrlOf(replies.imageApi).Some? ==>
                        && (replies.download.Unreachable? ==> run.result == Failure(DownloadThrew))
                        && (replies.download.Downloaded? && !replies.download.ok ==>
                              run.result == Failure(DownloadFailed(replies.download.status))))))
  {
  }

  /**
    Success is answered exactly when every step succeeds, and only after the
    image is stored under the month's key and the row is inserted; the body
    echoes the month, the generation id and the stored file's public URL.
   */
  lemma MonthSucceedsOnlyWhenStored(
    generations: map<string, GenerationRow>, prefix: string, tables: PromptTables,
    generationId: string, month: int, replies: MonthReplies)
    ensures var run := RunMonth(generations, prefix, tables, generationId, month, replies);
      && (run.result.Success? <==> AllStepsSucceed(generations, tables, generationId, month, replies))
      && (run.result.Success? ==>
            var url := PublicUrl(prefix, FileKey(generationId, month));
            && run.result.value == MonthSuccess(month, generationId, url)
            && run.upload == Some((FileKey(generationId, month), replies.download.body))
            && run.insert == Some(CalendarRow(generationId, url, Some(month)))
            && HttpStatus(run.result) == 200)
      && (AllStepsSucceed(generations, tables, generationId, month, replies) ==> 1 <= month)
  {
  }

  /** With conforming tables a successful month is one of 1..12. */
  lemma SuccessfulMonthInRange(
    generations: map<string, GenerationRow>, prefix: string, tables: PromptTables,
    generationId: string, month: int, replies: MonthReplies)
    requires Conforms(tables)
    requires RunMonth(generations, prefix, tables, generationId, month, replies).result.Success?
    ensures 1 <= month <= 12
  {
    TemplateSelection(tables, generations[generationId], month);
  }

  /**
    Running the same month twice with success keeps one file under the month's
    key, holding the second image, but leaves two `calendars` rows for that
    month: storage is idempotent, the row write is not.
   */
  lemma RepeatedMonthOverwritesFileButAddsRow(
    generations: map<string, GenerationRow>, prefix: string, tables: PromptTables,
    generationId: string, month: int, first: MonthReplies, second: MonthReplies,
    files: map<string, Bytes>, rows: seq<CalendarRow>)
    requires RunMonth(generations, prefix, tables, generationId, month, first).result.Success?
    requires RunMonth(generations, prefix, tables, generationId, month, second).result.Success?
    ensures var r1 := RunMonth(generations, prefix, tables, generationId, month, first);
      var r2 := RunMonth(generations, prefix, tables, generationId, month, second);
      var key := FileKey(generationId, month);
      var rows' := Appended(Appended(rows, r1.insert), r2.insert);
      && Upserted(Upserted(files, r1.upload), r2.upload) == files[key := second.download.body]
      && |rows'| == |rows| + 2
      && rows'[|rows|] == rows'[|rows| + 1]
      && rows'[|rows|].month == Some(month)
  {
    MonthSucceedsOnlyWhenStored(generations, prefix, tables, generationId, month, first);
    MonthSucceedsOnlyWhenStored(generations, prefix, tables, generationId, month, second);
  }

  /** The handler: each awaited step in turn, returning at the first failure. */
  method HandleMonthRequest(
    db: Backend, tables: PromptTables, generationId: string, month: int, replies: MonthReplies)
    returns (result: Result<MonthSuccess, MonthError>)
    modifies db
    ensures var run := RunMonth(old(db.generations), db.publicPrefix, tables, generationId, month, replies);
      && result == run.result
      && db.generations == old(db.generations)
      && db.files == Upserted(old(db.files), run.upload)
      && db.calendarRows == Appended(old(db.calendarRows), run.insert)
  {
    if !replies.fetchOk || generationId !in db.generations {
      return Failure(FetchFailed);
    }
    var row := db.generations[generationId];
    var prompt := ScenePrompt(tables, row, month);
    if prompt.None? {
      return Failure(NoTemplateForMonth);
    }
    if replies.imageApi.ImageApiUnreachable? {
      return Failure(ImageApiThrew);
    }
    if !replies.imageApi.ok {
      return Failure(ImageApiError(replies.imageApi.status, replies.imageApi.text));
    }
    if replies.imageApi.body.NotJson? {
      return Failure(ImageApiNotJson);
    }
    if ImageUrlOf(replies.imageApi).None? {
      return Failure(InvalidImageApiResponse);
    }
    if replies.download.Unreachable? {
      return Failure(DownloadThrew);
    }
    if !replies.download.ok {
      return Failure(DownloadFailed(replies.download.status));
    }
    var key := FileKey(generationId, month);
    var uploaded := db.Upload(key, replies.download.body, replies.uploadAccepted);
    if !uploaded {
      return Failure(UploadFailed);
    }
    var url := PublicUrl(db.publicPrefix, key);
    var inserted := db.Insert(CalendarRow(generationId, url, Some(month)), replies.insertAccepted);
    if !inserted {
      return Failure(InsertFailed);
    }
    return Success(MonthSuccess(month, generationId, url));
  }
}
