/**
  The prompt table kept next to the single-scene generator
  (`process-calendar/calendar-prompts.ts`): twelve month templates and the
  capitalised month names. Nothing imports this table; its templates are
  characterised by their skeletons.
 */
module ProcessCalendarPrompts {
  import opened Placeholders

  /** January to May: artist name, style, artist name again, the capitalised
      dog token, and the style once more. */
  const SpringSkeleton: seq<Token> :=
    [ArtistName, ArtistStyleCapital, ArtistName, DogDescriptionCapital, ArtistStyleCapital]

  /** As above, but the last token is the artist description. */
  const SummerSkeleton: seq<Token> :=
    [ArtistName, ArtistStyleCapital, ArtistName, DogDescriptionCapital, ArtistDescription]

  /** July alone writes the dog token in lower case. */
  const JulySkeleton: seq<Token> :=
    [ArtistName, ArtistStyleCapital, ArtistName, DogDescriptionLower, ArtistDescription]

  /** `calendarPrompts`, January to December, by skeleton. */
  const Skeletons: seq<seq<Token>> := [
    SpringSkeleton, // January
    SpringSkeleton, // February
    SpringSkeleton, // March
    SpringSkeleton, // April
    SpringSkeleton, // May
    SummerSkeleton, // June
    JulySkeleton,   // July
    SummerSkeleton, // August
    SummerSkeleton, // September
    SummerSkeleton, // October
    SummerSkeleton, // November
    SummerSkeleton  // December
  ]

  /** `monthNames` */
  const MonthNames: seq<string> := [
    "January", "February", "March", "April", "May", "June",
    "July", "August", "September", "October", "November", "December"
  ]

  predicate Conforms(templates: seq<Template>)
  {
    && |templates| == |Skeletons|
    && forall m :: 0 <= m < |templates| ==>
         WellFormed(templates[m]) && Slots(templates[m]) == Skeletons[m]
  }

  /**
    Twelve templates. Every one holds `[Artist]` and `[Artist style]`. Month
    index m (0 = January) holds `[artist description]` exactly when it is June
    or later. Every one holds a dog-description token: the lower-case one
    exactly in July, the capitalised one in every other month.
   */
  lemma TokenUsage(templates: seq<Template>, m: nat)
    requires Conforms(templates) && m < |templates|
    ensures |templates| == 12
    ensures Slot(ArtistName) in templates[m] && Slot(ArtistStyleCapital) in templates[m]
    ensures Slot(ArtistDescription) in templates[m] <==> m >= 5
    ensures Slot(DogDescriptionLower) in templates[m] <==> m == 6
    ensures Slot(DogDescriptionCapital) in templates[m] <==> m != 6
    ensures Slot(ArtistStyleLower) !in templates[m]
  {
    var sk := Slots(templates[m]);
    assert sk == Skeletons[m];
    if m < 5 {
      assert sk == SpringSkeleton;
    } else if m == 6 {
      assert sk == JulySkeleton;
    } else {
      assert sk == SummerSkeleton;
    }
  }

  /** Twelve month names, pairwise distinct, in calendar order. */
  lemma MonthNamesDistinct()
    ensures |MonthNames| == 12
    ensures MonthNames[0] == "January" && MonthNames[11] == "December"
    ensures forall i, j :: 0 <= i < j < |MonthNames| ==> MonthNames[i] != MonthNames[j]
  {
  }
}
