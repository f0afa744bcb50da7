# Paw-prints calendar generators: a Dafny model

This project models two Supabase edge functions that paint dog calendars.

- **`generate-calendar-month`** makes one month's picture. It reads a generation's stored dog descriptions and artist style. It picks that month's template from a single-dog or a multi-dog table and replaces six placeholder spellings in it. It asks the image API for a picture and downloads it. It stores the picture under `calendar_<generationId>_<month>.png` and inserts a `calendars` row.
- **`process-calendar`** makes one winter scene for a whole generation. It asks a vision model to describe each dog photo, then builds the scene prompt from those descriptions. It asks the image API for a picture and stores it under `calendar_<generationId>.png`. It inserts a row and marks the generation completed.

The model follows the source's structure:

- `strings.dfy` (`Strings`) covers the JavaScript string behaviour the handlers rely on:
  - global literal replacement;
  - `Array.join`, where null becomes "";
  - interpolation, where null becomes "null".
- `placeholders.dfy` (`Placeholders`) defines templates:
  - A template is prose with tokens in it. Prose holds no `[`.
  - The model proves that global replacement of a token's spelling equals filling that token's slots.
- `generate_month_prompts.dfy` and `process_calendar_prompts.dfy` hold the two `calendar-prompts.ts` tables, described by the tokens each template holds.
- `platform.dfy` (`Platform`) models the Supabase project as a class, `Backend`, and the API replies as values:
  - the storage bucket, written with upsert;
  - the `calendars` table, written with plain inserts;
  - the `calendar_generations` rows.
- `generate_calendar_month.dfy` and `process_calendar.dfy` model the two handlers:
  - a pure function describes each run and its effects;
  - a method performs the same steps on a `Backend` and is proved equal to that function.

Wording is kept opaque. A template is a sequence of prose and token pieces. The month handler takes its two template arrays and its artist-description table as a `PromptTables` value. The arrays must match the recorded token skeletons. The source uses the table `GenerateCalendarMonth.ArtistDescriptions`. The scene builder takes its artist-description table and its two framings of the winter scene as a `SceneWording` value. The source uses the table `ProcessCalendar.ArtistDescriptions`. Every external call's answer is an input.

## Model

| member | source | states |
|---|---|---|
| Strings.ReplaceAll | supabase/functions/generate-calendar-month/index.ts:146-152 | Computes `s.replace(/pat/g, rep)` for a literal pattern. It scans left to right, replaces each non-overlapping occurrence, and never rescans inserted text. |
| Strings.Join | supabase/functions/process-calendar/index.ts:37 | Computes `xs.join(sep)`: the elements in order, with `sep` between neighbours. |
| Strings.JoinValues | supabase/functions/generate-calendar-month/index.ts:150-151 | Computes `.join(' and ')` over JSON values, where a null element becomes "". |
| Placeholders.ReplaceAllFills | supabase/functions/generate-calendar-month/index.ts:146-152 | On a template whose prose has no `[`, replacing every occurrence of one placeholder spelling is exactly filling that token's slots. No prose or other token hides or creates a match. |
| Placeholders.FillKeepsShape | supabase/functions/generate-calendar-month/index.ts:146-152 | Filling a token with text free of `[` keeps the template well formed. It removes exactly that token from the template's tokens. |
| GenerateCalendarMonth.Normalise | supabase/functions/generate-calendar-month/index.ts:133 | Computes the description list: a stored array as it is, and any other value as a one-element list. |
| GenerateCalendarMonth.FillPlaceholders | supabase/functions/generate-calendar-month/index.ts:146-152 | Computes the six chained global replacements, in the handler's order. The style replaces the three artist spellings, the joined dogs replace both dog spellings, and the artist description comes last. |
| GenerateCalendarMonth.FillPlaceholdersInstantiates | supabase/functions/generate-calendar-month/index.ts:146-152 | The chain of six global replacements replaces every slot with its value and changes nothing else. `[Artist]` and both `[artist style]` spellings get the style name. Both dog spellings get the joined descriptions. `[artist description]` gets the looked-up description. This needs only the style and dog text to be free of `[`. |
| GenerateCalendarMonth.FillPieceChain | supabase/functions/generate-calendar-month/index.ts:146-152 | On one piece, the six fills in the handler's order turn a slot into its value and leave prose alone. |
| GenerateCalendarMonth.FillChainInstantiates | supabase/functions/generate-calendar-month/index.ts:146-152 | The six slot fills, in the handler's order, give the template with every token turned into its value. |
| GenerateCalendarMonth.ReplaceStep | supabase/functions/generate-calendar-month/index.ts:147 | One replacement on a well-formed template fills that token and keeps the template well formed. |
| GenerateCalendarMonth.InstantiatedHasNoSlot | supabase/functions/generate-calendar-month/index.ts:146-152 | After instantiation no token slot remains. |
| GenerateCalendarMonth.RenderedPromptHasNoPlaceholder | supabase/functions/generate-calendar-month/index.ts:146-152 | If the substituted values hold no `[`, the rendered prompt holds no `[`, so none of the six placeholder spellings remains. |
| GenerateCalendarMonth.RenderedPromptEmbedsValue | supabase/functions/generate-calendar-month/index.ts:146-152 | Every token the template holds appears in the prompt as its value. |
| GenerateCalendarMonth.RenderIgnoresAbsentDescription | supabase/functions/generate-calendar-month/index.ts:152 | A template without `[artist description]` renders the same whatever the artist description is. |
| GenerateCalendarMonth.DescriptionOf | supabase/functions/generate-calendar-month/index.ts:140 | The lookup, with its fallback for a missing or empty entry, never gives "". It is either the fallback phrase or the table's own entry for the style. |
| GenerateCalendarMonth.ArtistDescriptionTotal | supabase/functions/generate-calendar-month/index.ts:140 | On the handler's table, `DescriptionOf` never fails. A listed style gives its own entry. Any other style gives exactly the fallback phrase. The result is never empty. |
| GenerateCalendarMonth.ElevenStyles | supabase/functions/generate-calendar-month/index.ts:92-104 | The description table has exactly eleven distinct styles. |
| GenerateCalendarMonth.TemplateFor | supabase/functions/generate-calendar-month/index.ts:136-143 | Computes `promptsToUse[month - 1]`. It reads the multi-dog array for more than one description and the single-dog array otherwise, and gives nothing outside the array. |
| GenerateCalendarMonth.ScenePrompt | supabase/functions/generate-calendar-month/index.ts:133-152 | Computes the month's prompt. It fills the selected template with the style, the joined descriptions and the looked-up artist description, and gives nothing when there is no template. |
| GenerateCalendarMonth.TemplateSelection | supabase/functions/generate-calendar-month/index.ts:133-143 | A non-array value is wrapped into a one-element sequence. The multi-dog table is used exactly when the stored value is an array of more than one description. Otherwise the single-dog table is used, also for an empty array. Month m uses entry m-1, and a template exists exactly for months 1 to 12. |
| GenerateCalendarMonth.DogTextBracketFree | supabase/functions/generate-calendar-month/index.ts:150 | Descriptions joined by " and " hold no `[` when none of them does. |
| GenerateCalendarMonth.MultiDogPromptNamesEveryDog | supabase/functions/generate-calendar-month/index.ts:133-152 | With more than one dog, the month prompt names each dog's description. It contains all descriptions joined by " and " in order, the style name, and the style's description. |
| GenerateCalendarMonth.SingleDogPromptNamesTheDog | supabase/functions/generate-calendar-month/index.ts:133-152 | With at most one dog, the month prompt comes from the single-dog array. It contains the description text and the style name, and holds no `[`. |
| GenerateCalendarMonth.SingleDogPromptIgnoresDescriptions | supabase/functions/generate-calendar-month/index.ts:140-152 | The single-dog prompt is the same whatever the artist-description table says, because those templates never hold `[artist description]`. |
| GenerateCalendarMonth.RendererCoversPromptFiles | supabase/functions/generate-calendar-month/index.ts:146-152 | For every template of either `calendar-prompts.ts` table, rendering leaves no placeholder and inserts the dog text. So the replace list covers every token those tables use. |
| GenerateCalendarMonth.KeyMonthName | supabase/functions/generate-calendar-month/index.ts:199-201 | Computes `monthNames[month - 1]` from the lower-case table, which is "undefined" outside months 1 to 12. |
| GenerateCalendarMonth.FileKey | supabase/functions/generate-calendar-month/index.ts:201 | Computes the storage key `calendar_<generationId>_<month name>.png`. |
| GenerateCalendarMonth.KeyMonthNamesShape | supabase/functions/generate-calendar-month/index.ts:199-201 | The key table has twelve entries. For months 1 to 12, no month name followed by `.png` contains `_`, and two different months have different names. |
| GenerateCalendarMonth.KeyMonthNamesDistinct | supabase/functions/generate-calendar-month/index.ts:199-200 | The lower-case month names are pairwise distinct. |
| GenerateCalendarMonth.SplitAtLastUnderscore | supabase/functions/generate-calendar-month/index.ts:201 | A key of the form `p_x`, where x has no `_`, determines both p and x. |
| GenerateCalendarMonth.FileKeyInjective | supabase/functions/generate-calendar-month/index.ts:199-201 | For months 1 to 12, two (generation, month) pairs share a storage key only if they are the same pair. |
| GenerateCalendarMonth.ImageUrlOf | supabase/functions/generate-calendar-month/index.ts:182-187 | The image URL is accepted only when the reply parsed as JSON, its `data` has a first element, and that element's `url` is present and not empty. The result is that URL. |
| GenerateCalendarMonth.RunMonth | supabase/functions/generate-calendar-month/index.ts:111-258 | Computes one request from the stored generations and the replies of each call. It gives the result, the prompt sent, the file stored and the row inserted. Every failing step ends the run with its own error. |
| GenerateCalendarMonth.MonthFailsFast | supabase/functions/generate-calendar-month/index.ts:120-194 | These failures end the request, each with its own error and a 500, before anything is stored: a failed fetch; a month without a template; an image request that throws; a non-ok image API status, whose error carries the status and body; a body that is not JSON; a reply lacking `data`, `data[0]` or a non-empty `data[0].url`; a download that throws; a download that is not ok. No failure inserts a row. |
| GenerateCalendarMonth.MonthSucceedsOnlyWhenStored | supabase/functions/generate-calendar-month/index.ts:204-245 | Success happens exactly when every step succeeds. By then the image is stored under the month's key, and a row with that public URL and the month is inserted. The body echoes the month, the generation id and the URL with status 200. |
| GenerateCalendarMonth.SuccessfulMonthInRange | supabase/functions/generate-calendar-month/index.ts:143 | A successful request had a month from 1 to 12. |
| GenerateCalendarMonth.RepeatedMonthOverwritesFileButAddsRow | supabase/functions/generate-calendar-month/index.ts:204-228 | Generating the same month twice leaves one file, holding the second image, but two identical rows. |
| GenerateCalendarMonth.HandleMonthRequest | supabase/functions/generate-calendar-month/index.ts:111-258 | The handler returns the result of `RunMonth`. It changes the bucket and the `calendars` table by exactly that run's upload and insert, and leaves the generations alone. |
| Platform.Upserted | supabase/functions/generate-calendar-month/index.ts:204-209 | Computes the bucket after an upload with `upsert: true`: the key holds the new bytes. |
| Platform.Appended | supabase/functions/generate-calendar-month/index.ts:222-228 | Computes the `calendars` table after a plain insert: the new row is appended. |
| Platform.MarkedCompleted | supabase/functions/process-calendar/index.ts:158-169 | Computes the generations after the status update: the row with that id, if any, is marked completed at the given time. |
| Platform.WritesKeepTheRest | supabase/functions/process-calendar/index.ts:125-169 | Each write touches only what it names. An upload keeps every other file. An insert keeps the earlier rows in order and puts the new row last. The update keeps every other generation and every other column. |
| Platform.UpsertOverwrites | supabase/functions/generate-calendar-month/index.ts:204-209 | Uploading twice under one key leaves one file holding the later bytes. |
| Platform.Backend.Upload | supabase/functions/process-calendar/index.ts:125-135 | An accepted upload sets the key to the new bytes and keeps every other file. A rejected one changes nothing. |
| Platform.Backend.Insert | supabase/functions/process-calendar/index.ts:145-155 | An accepted insert appends the row and a rejected one changes nothing. |
| Platform.Backend.MarkCompleted | supabase/functions/process-calendar/index.ts:158-169 | An accepted update sets the row's status to "completed" and its completion time, and changes nothing else. |
| GenerateMonthPrompts.TokenUsage | supabase/functions/generate-calendar-month/calendar-prompts.ts:2-38 | There are twelve templates. Each holds `[Artist]`, `[dog description]` and `[artist description]`. None holds `[Artist style]`, `[artist style]` or `[Dog description]`. |
| GenerateMonthPrompts.MonthNamesDistinct | supabase/functions/generate-calendar-month/calendar-prompts.ts:40-43 | There are twelve month names, pairwise distinct, from January to December. |
| ProcessCalendarPrompts.TokenUsage | supabase/functions/process-calendar/calendar-prompts.ts:2-38 | There are twelve templates, and each holds `[Artist]` and `[Artist style]`. `[artist description]` appears exactly in months 6 to 12. `[dog description]` appears exactly in July, and `[Dog description]` in every other month. |
| ProcessCalendarPrompts.MonthNamesDistinct | supabase/functions/process-calendar/calendar-prompts.ts:40-43 | There are twelve month names, pairwise distinct, from January to December. |
| ProcessCalendar.ArtistTablesDifferOnlyOnVanGogh | supabase/functions/process-calendar/index.ts:16-32 | This handler describes the same eleven styles as the month generator, with the same fallback. The wording differs only for "Van Gogh". |
| ProcessCalendar.SceneDescription | supabase/functions/process-calendar/index.ts:31-40 | Computes `getSceneDescription`. A count of 1 frames the first description as interpolated. Any other count frames all descriptions joined by " and ". |
| ProcessCalendar.FramedParts | supabase/functions/process-calendar/index.ts:35-38 | A framed scene starts with "A painting in the style of " and the style. It contains the dog text and the artist description. |
| ProcessCalendar.SceneNamesTheStyle | supabase/functions/process-calendar/index.ts:31-40 | Both branches start with "A painting in the style of " followed by the style. Both contain the style's description, or the fallback phrase for an unknown style. |
| ProcessCalendar.SingleDogSceneUsesFirstDescription | supabase/functions/process-calendar/index.ts:34-35 | With a dog count of 1, the scene contains the first description as interpolated text. Later descriptions play no part. |
| ProcessCalendar.MultiDogSceneNamesEveryDog | supabase/functions/process-calendar/index.ts:36-38 | With any other count, including 0, the scene contains all descriptions joined by " and " in order, and so each one. |
| ProcessCalendar.DescriptionsOf | supabase/functions/process-calendar/index.ts:55-91 | If every reply has content, the result is one description per photo, in order. Otherwise it fails at the first malformed reply, and every earlier reply was fine. |
| ProcessCalendar.DescribePhotos | supabase/functions/process-calendar/index.ts:55-91 | The loop over photo URLs computes exactly `DescriptionsOf` of the replies. |
| ProcessCalendar.ProcessFileKey | supabase/functions/process-calendar/index.ts:124 | Computes the storage key `calendar_<generationId>.png`. |
| ProcessCalendar.ProcessFileKeyInjective | supabase/functions/process-calendar/index.ts:124 | Each generation has its own storage key. |
| ProcessCalendar.KeysOfTheTwoGeneratorsDiffer | supabase/functions/process-calendar/index.ts:124 | For a generation id without `_`, this key differs from every month generator key. |
| ProcessCalendar.KeysCanClashForUnderscoreIds | supabase/functions/process-calendar/index.ts:124 | With an `_` in the id, the two key schemes can clash. |
| ProcessCalendar.ImageUrlField | supabase/functions/process-calendar/index.ts:114-115 | Reading `data[0].url` succeeds exactly when the JSON body has a first element in `data`, and gives that element's `url`, which may be absent. Wherever the month generator accepts an image URL, this handler reads the same URL. |
| ProcessCalendar.RunProcess | supabase/functions/process-calendar/index.ts:47-193 | Computes one request from the photos and the replies of each call. It gives the result, the prompt sent, the file stored, the row inserted, and whether the generation was marked completed. |
| ProcessCalendar.CompletedOnlyAfterStoring | supabase/functions/process-calendar/index.ts:120-180 | The generation is marked completed exactly when the request succeeds, and that happens exactly when every step succeeds. Success means the image is stored under the generation's key and a row with its public URL and no month is inserted. The body returns that URL and the id with status 200. |
| ProcessCalendar.FailureLeavesStatus | supabase/functions/process-calendar/index.ts:132-193 | Any failure answers 500 and leaves the status unchanged. A failure before the upload stores nothing. A rejected insert keeps the file. A rejected update keeps the file and the row. A vision failure names a malformed reply. An image request that throws, and a body that is not JSON, each have their own error. |
| ProcessCalendar.RerunOverwritesFileButAddsRow | supabase/functions/process-calendar/index.ts:124-155 | Running a generation twice leaves one file, holding the second image, and two identical rows. |
| ProcessCalendar.FailedDownloadIsStored | supabase/functions/process-calendar/index.ts:120-135 | A download answered with an error status still has its body stored, and the request succeeds. |
| ProcessCalendar.PromptUsesEveryDescription | supabase/functions/process-calendar/index.ts:94 | The dog count passed is the number of photos, which equals the number of descriptions. So the prompt contains every non-null description. |
| ProcessCalendar.HandleProcessRequest | supabase/functions/process-calendar/index.ts:47-193 | The handler returns the result of `RunProcess`. It changes the bucket, the `calendars` table and the generation's status by exactly that run's effects. |

## Left out

- HTTP serving, CORS, the `OPTIONS` preflight and logging are left out. Every call to OpenAI (vision and image generation) and to Supabase becomes an input: a reply or an accepted flag. The request body is given already parsed, and parse failures are not modelled.
- Timestamps are left out: `new Date().toISOString()` becomes the `completedAt` input.
- `$` patterns in replacement strings (`$&`, `$1`, `$$`) are not modelled. `ReplaceAll` inserts the replacement literally, which is what happens for values without `$`.
- Template wording is not modelled. The wording of each month's template is left out. A table is identified by the sequence of tokens each template holds. The handlers take the tables as an input that must match those sequences.
- Object-prototype keys in the description lookup are not modelled, such as a style named `toString`. For those, JavaScript returns an inherited member rather than the fallback.
- Months that are not integers are not modelled, nor are string months such as `"3"`, or a `null` `artist_style`. Stored dog descriptions are strings or null.
- The body of a non-ok image reply is read as text, and that read is taken to succeed. `response.json()` either parses or throws. Its other outcomes, such as a `data` field that is not an array, are not modelled.
- The image download body is taken as bytes. `blob()` and `arrayBuffer()` are assumed to succeed.
- A public URL is modelled as a fixed prefix followed by the key.
- In `process-calendar`, `fetch` of a missing `data[0].url` is modelled as a throwing download. An image URL that the fetch itself rejects is covered by the download input.
- `ProcessCalendar.DescribePhotos` requires one vision reply per photo URL, because the replies are an input.
- `GenerateCalendarMonth.MultiDogPromptNamesEveryDog` does not conclude that the prompt is free of `[`. The description table is an input whose entries are not constrained. `RenderedPromptHasNoPlaceholder` states the property for any description free of `[`.
- Scene prose is not modelled. The winter-scene wording of `getSceneDescription` is an input, `SceneWording`, and only the opening "A painting in the style of " is kept. The lemmas hold for any wording.
- The description tables are inputs to the handlers. The tables are kept as constants, and the facts about them are proved on the constants: eleven styles, the total lookup, and the Van Gogh difference.
- `send-calendar-notification`, the generated Supabase types and the React pages have no behaviour in the modelled core and are not part of this model.
- The lower-case key month names are not related to the capitalised names of `calendar-prompts.ts`. The relation holds only between constants. `KeyMonthNamesShape` states what the keys need: twelve distinct names, none containing `_`.
- `process-calendar` has no fallback when a photo description fails: the handler throws. The model follows the code.
