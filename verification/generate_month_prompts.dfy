/**
  The prompt table kept next to the month generator
  (`generate-calendar-month/calendar-prompts.ts`): twelve month templates and
  the capitalised month names. The wording of each template is opaque; a
  template is characterised by its skeleton, the tokens it holds in order.
 */
module GenerateMonthPrompts {
  import opened Placeholders

  /** Skeleton shared by every month: the artist name, the lower-case dog
      token, then the artist description. */
  const MeadowSkeleton: seq<Token> := [ArtistName, DogDescriptionLower, ArtistDescription]

  /** `calendarPrompts`, January to December, by skeleton. */
  const Skeletons: seq<seq<Token>> := [
    MeadowSkeleton, // January
    MeadowSkeleton, // February
    MeadowSkeleton, // March
    MeadowSkeleton, // April
    MeadowSkeleton, // May
    MeadowSkeleton, // June
    MeadowSkeleton, // July
    MeadowSkeleton, // August
    MeadowSkeleton, // September
    MeadowSkeleton, // October
    MeadowSkeleton, // November
    MeadowSkeleton  // December
  ]

  /** `monthNames` */
  const MonthNames: seq<string> := [
    "January", "February", "March", "April", "May", "June",
    "July", "August", "September", "October", "November", "December"
  ]

  /** A table of template texts is this file's `calendarPrompts` when it has one
      well-formed template per month with the recorded skeleton. */
  predicate Conforms(templates: seq<Template>)
  {
    && |templates| == |Skeletons|
    && forall m :: 0 <= m < |templates| ==>
         WellFormed(templates[m]) && Slots(templates[m]) == Skeletons[m]
  }

  /** Twelve templates; each holds `[Artist]`, `[dog description]` and
      `[artist description]`, and none holds a capitalised `[Artist style]` or
      `[Dog description]` (nor `[artist style]`). */
  lemma TokenUsage(templates: seq<Template>, m: nat)
    requires Conforms(templates) && m < |templates|
    ensures |templates| == 12
    ensures Slot(ArtistName) in templates[m]
    ensures Slot(DogDescriptionLower) in templates[m]
    ensures Slot(ArtistDescription) in templates[m]
    ensures Slot(ArtistStyleCapital) !in templates[m]
    ensures Slot(DogDescriptionCapital) !in templates[m]
    ensures Slot(ArtistStyleLower) !in templates[m]
  {
    assert Slots(templates[m]) == MeadowSkeleton;
  }

  /** Twelve month names, pairwise distinct, in calendar order. */
  lemma MonthNamesDistinct()
    ensures |MonthNames| == 12
    ensures MonthNames[0] == "January" && MonthNames[11] == "December"
    ensures forall i, j :: 0 <= i < j < |MonthNames| ==> MonthNames[i] != MonthNames[j]
  {
  }
}
