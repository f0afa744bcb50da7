/**
  The single-scene generator (`process-calendar/index.ts`): it asks a vision
  model to describe each uploaded dog photo, builds one winter-scene prompt
  from the descriptions and the artist style, has the image API paint it,
  stores the image under one key per generation, records a `calendars` row
  and marks the generation completed. Any failure ends the request in the 500
  branch.
 */
module ProcessCalendar {
  import opened Strings
  import opened Outcomes
  import opened Platform
  import Month = GenerateCalendarMonth

  // ---------------------------------------------------------------------------
  // Artist descriptions

  /** This handler's own `artistDescriptions`. */
  const ArtistDescriptions: map<string, string> := map[
    "Impressionist" := "loose, expressive brushstrokes and soft, dappled light filtering through trees, creating a dreamy atmosphere with warm earth tones and cool shadows",
    "Cubist" := "geometric forms and fragmented perspectives, breaking down the landscape into angular planes and bold, contrasting colors",
    "Pop Art" := "vibrant, saturated colors and bold outlines, with high contrast and graphic elements that make the scene pop with energy",
    "Watercolor" := "soft, flowing washes of color that blend seamlessly, with delicate transparency and gentle gradations",
    "Renaissance" := "precise detail and balanced composition, with rich, deep colors and masterful use of light and shadow",
    "Modern" := "clean lines and simplified forms, with a focus on composition and color relationships over fine detail",
    "Minimalist" := "simple, clean composition with essential elements only, using a limited color palette and plenty of negative space",
    "Abstract" := "non-representational forms and bold color combinations, emphasizing emotion and movement over realistic depiction",
    "Surrealist" := "dreamlike quality with unexpected elements and mysterious atmosphere, blending reality with imagination",
    "Cartoon" := "stylized, exaggerated features with bright, cheerful colors and a playful, animated quality",
    "Van Gogh" := "distinctive swirling brushstrokes and vibrant, emotional colors with thick impasto technique and dynamic energy"
  ]

  /**
    The two handlers describe the same eleven styles, with the same fallback,
    and word every style alike except "Van Gogh".
   */
  lemma ArtistTablesDifferOnlyOnVanGogh(style: string)
    ensures ArtistDescriptions.Keys == Month.ArtistDescriptions.Keys
    ensures style != "Van Gogh" ==>
      Month.DescriptionOf(ArtistDescriptions, style) == Month.DescriptionOf(Month.ArtistDescriptions, style)
    ensures Month.DescriptionOf(ArtistDescriptions, "Van Gogh") != Month.DescriptionOf(Month.ArtistDescriptions, "Van Gogh")
  {
  }

  // ---------------------------------------------------------------------------
  // The scene prompt

  const SceneOpening: string := "A painting in the style of "

  /** The prose of one branch of the scene: what follows the style name, what
      follows the dogs, and what follows the artist description. */
  datatype Framing = Framing(setting: string, middle: string, closing: string)

  /**
    What the scene builder words: the artist-description table and the two
    framings, a single small figure of a dog or small figures of dogs walking
    together in a sunlit winter clearing. The wording itself is kept opaque.
   */
  datatype SceneWording = SceneWording(descriptions: map<string, string>, single: Framing, multi: Framing)

  /** `${dogDescriptions[0]}`: `undefined` for an empty array. */
  function FirstInterpolated(descriptions: seq<JsString>): string
  {
    if |descriptions| > 0 then Interpolated(descriptions[0]) else "undefined"
  }

  function Framed(style: string, f: Framing, dogs: string, artistDesc: string): string
  {
    SceneOpening + style + f.setting + dogs + f.middle + artistDesc + f.closing
  }

  /** `getSceneDescription(artistStyle, dogDescriptions, dogCount)` */
  function SceneDescription(wording: SceneWording, style: string, descriptions: seq<JsString>, dogCount: int): string
  {
    var artistDesc := Month.DescriptionOf(wording.descriptions, style);
    if dogCount == 1 then Framed(style, wording.single, FirstInterpolated(descriptions), artistDesc)
    else Framed(style, wording.multi, JoinValues(descriptions, " and "), artistDesc)
  }

  /** A framed scene starts with the opening and the style, and contains the
      dogs and the artist description. */
  lemma FramedParts(style: string, f: Framing, dogs: string, artistDesc: string)
    ensures var p := Framed(style, f, dogs, artistDesc);
      && |SceneOpening + style| <= |p| && p[..|SceneOpening + style|] == SceneOpening + style
      && Contains(p, dogs) && Contains(p, artistDesc)
  {
    var head := SceneOpening + style;
    var p := Framed(style, f, dogs, artistDesc);
    assert p == head + (f.setting + dogs + f.middle + artistDesc + f.closing);
    assert p == (head + f.setting) + dogs + (f.middle + artistDesc + f.closing);
    ContainsInfix(head + f.setting, dogs, f.middle + artistDesc + f.closing);
    assert p == (head + f.setting + dogs + f.middle) + artistDesc + f.closing;
    ContainsInfix(head + f.setting + dogs + f.middle, artistDesc, f.closing);
  }

  /**
    Every scene opens with "A painting in the style of " and the style name,
    and is painted with the style's description (the fallback phrase for an
    unknown style).
   */
  lemma SceneNamesTheStyle(wording: SceneWording, style: string, descriptions: seq<JsString>, dogCount: int)
    ensures var p := SceneDescription(wording, style, descriptions, dogCount);
      && |SceneOpening + style| <= |p|
      && p[..|SceneOpening + style|] == SceneOpening + style
      && Contains(p, Month.DescriptionOf(wording.descriptions, style))
  {
    var d := Month.DescriptionOf(wording.descriptions, style);
    if dogCount == 1 {
      FramedParts(style, wording.single, FirstInterpolated(descriptions), d);
    } else {
      FramedParts(style, wording.multi, JoinValues(descriptions, " and "), d);
    }
  }

  /**
    With a dog count of one, the scene describes a single dog by the first
    description only (a null one reads "null"); the remaining descriptions
    play no part.
   */
  lemma SingleDogSceneUsesFirstDescription(
    wording: SceneWording, style: string, descriptions: seq<JsString>, others: seq<JsString>)
    requires |descriptions| >= 1
    ensures Contains(SceneDescription(wording, style, descriptions, 1), Interpolated(descriptions[0]))
    ensures SceneDescription(wording, style, descriptions, 1)
         == SceneDescription(wording, style, descriptions[..1] + others, 1)
  {
    FramedParts(style, wording.single, FirstInterpolated(descriptions), Month.DescriptionOf(wording.descriptions, style));
    assert FirstInterpolated(descriptions[..1] + others) == FirstInterpolated(descriptions);
  }

  /**
    With any other count, the scene names every dog: all descriptions joined
    by " and " in order, and so each description (a null one reads as
    nothing).
   */
  lemma MultiDogSceneNamesEveryDog(
    wording: SceneWording, style: string, descriptions: seq<JsString>, dogCount: int, i: nat)
    requires dogCount != 1 && i < |descriptions|
    ensures Contains(SceneDescription(wording, style, descriptions, dogCount), JoinValues(descriptions, " and "))
    ensures Contains(SceneDescription(wording, style, descriptions, dogCount), JoinForm(descriptions[i]))
  {
    var x := JoinValues(descriptions, " and ");
    FramedParts(style, wording.multi, x, Month.DescriptionOf(wording.descriptions, style));
    JoinContainsEach(JoinForms(descriptions), " and ", i);
    ContainsTrans(SceneDescription(wording, style, descriptions, dogCount), x, JoinForm(descriptions[i]));
  }

  // ---------------------------------------------------------------------------
  // Describing the photos

  /** What `(await visionResponse.json()).choices[0].message.content` gives: the
      content (possibly null), or a throw when the reply lacks that path. */
  datatype VisionReply = Answered(content: JsString) | Malformed

  /**
    The descriptions of all photos in order, or the index of the first photo
    whose reply is malformed: that access throws and ends the loop.
   */
  function DescriptionsOf(replies: seq<VisionReply>): (r: Result<seq<JsString>, nat>)
    ensures r.Success? <==> forall i :: 0 <= i < |replies| ==> replies[i].Answered?
    ensures r.Success? ==>
      |r.value| == |replies| && forall i :: 0 <= i < |replies| ==> r.value[i] == replies[i].content
    ensures r.Failure? ==>
      && r.error < |replies| && replies[r.error].Malformed?
      && forall i :: 0 <= i < r.error ==> replies[i].Answered?
  {
    if replies == [] then Success([])
    else if replies[0].Malformed? then Failure(0)
    else match DescriptionsOf(replies[1..])
      case Success(rest) => Success([replies[0].content] + rest)
      case Failure(i) => Failure(i + 1)
  }

  /** The vision loop: one request per photo URL, in order, pushing each reply's content. */
  method DescribePhotos(photoUrls: seq<string>, replies: seq<VisionReply>) returns (r: Result<seq<JsString>, nat>)
    requires |replies| == |photoUrls|
    ensures r == DescriptionsOf(replies)
  {
    var descriptions: seq<JsString> := [];
    var i := 0;
    while i < |photoUrls|
      invariant 0 <= i <= |photoUrls|
      invariant |descriptions| == i
      invariant forall j :: 0 <= j < i ==> replies[j].Answered? && descriptions[j] == replies[j].content
    {
      match replies[i]
      case Malformed =>
        return Failure(i);
      case Answered(content) =>
        descriptions := descriptions + [content];
      i := i + 1;
    }
    assert descriptions == DescriptionsOf(replies).value;
    return Success(descriptions);
  }

  // ---------------------------------------------------------------------------
  // Storage key

  /** `calendar_${generationId}.png` */
  function ProcessFileKey(generationId: string): string
  {
    "calendar_" + generationId + ".png"
  }

  /** Each generation has its own key. */
  lemma ProcessFileKeyInjective(a: string, b: string)
    requires ProcessFileKey(a) == ProcessFileKey(b)
    ensures a == b
  {
    assert a == ProcessFileKey(a)[9..|ProcessFileKey(a)| - 4];
    assert b == ProcessFileKey(b)[9..|ProcessFileKey(b)| - 4];
  }

  /**
    For a generation id without `_` (such as a UUID), this handler's key
    differs from every month key of the month generator, so the two never
    overwrite each other's files.
   */
  lemma KeysOfTheTwoGeneratorsDiffer(id: string, other: string, month: int)
    requires NoChar(id, '_')
    ensures ProcessFileKey(id) != Month.FileKey(other, month)
  {
    var k := ProcessFileKey(id);
    var k' := Month.FileKey(other, month);
    var n := |"calendar_" + other|;
    assert 9 <= n < |k'| && k'[n] == '_';
    forall j | 9 <= j < |k| ensures k[j] != '_' {
      if j < 9 + |id| {
        assert k[j] == id[j - 9];
      } else {
        assert k[j] == ".png"[j - 9 - |id|];
      }
    }
  }

  /** Without that assumption the keys can clash: generation `abc_january`
      here and month 1 of generation `abc` there use the same file. */
  lemma KeysCanClashForUnderscoreIds()
    ensures ProcessFileKey("abc_january") == Month.FileKey("abc", 1)
  {
  }

  // ---------------------------------------------------------------------------
  // The request handler

  /** What each external call answers, in call order. */
  datatype ProcessReplies = ProcessReplies(
    visions: seq<VisionReply>, // one per photo URL
    imageApi: ImageApiReply,   // the image-generation request
    download: DownloadReply,   // fetching the generated image
    uploadAccepted: bool,      // the storage upload reports no error
    insertAccepted: bool,      // the `calendars` insert reports no error
    updateAccepted: bool,      // the status update reports no error
    completedAt: string)       // `new Date().toISOString()`

  /** The error each `throw` of the handler carries. */
  datatype ProcessError =
    | VisionReplyMalformed(photo: nat) // `visionData.choices[0].message.content` threw
    | ImageApiThrew                    // the image-generation `fetch` threw
    | ImageApiNotJson                  // `dalleResponse.json()` threw
    | NoImageInReply                   // `dalleData.data[0].url` threw
    | DownloadThrew                    // `fetch(generatedImageUrl)` threw
    | UploadFailed
    | InsertFailed
    | UpdateFailed

  /** The 200 body: `{success: true, calendarUrl, generationId}`. */
  datatype ProcessSuccess = ProcessSuccess(calendarUrl: string, generationId: string)

  /** What one request does: its result, the prompt it sent, the file it stored,
      the row it inserted, and whether it marked the generation completed. */
  datatype ProcessRun = ProcessRun(
    result: Result<ProcessSuccess, ProcessError>,
    prompt: Option<string>,
    upload: Option<(string, Bytes)>,
    insert: Option<CalendarRow>,
    completed: bool)

  /** `dalleData.data[0].url`: a throw when `data` or its first element is
      missing, otherwise the field, which may be absent. */
  function ImageUrlField(reply: ImageApiReply): (r: Option<Option<string>>)
    ensures Month.ImageUrlOf(reply).Some? ==> r == Some(Month.ImageUrlOf(reply))
    ensures r.Some? ==> DataOf(reply).Some? && |DataOf(reply).value| > 0 && DataOf(reply).value[0] == Entry(r.value)
  {
    match DataOf(reply)
    case None => None
    case Some(entries) =>
      if |entries| == 0 then None
      else match entries[0]
        case NullEntry => None
        case Entry(url) => Some(url)
  }

  /** The handler's steps as a function of the request and the replies. Neither
      the image API status nor the download status is checked. */
  function RunProcess(
    prefix: string, wording: SceneWording, generationId: string, photoUrls: seq<string>, style: string, replies: ProcessReplies): ProcessRun
    requires |replies.visions| == |photoUrls|
  {
    match DescriptionsOf(replies.visions)
    case Failure(i) => ProcessRun(Failure(VisionReplyMalformed(i)), None, None, None, false)
    case Success(descriptions) =>
      var prompt := SceneDescription(wording, style, descriptions, |photoUrls|);
      if replies.imageApi.ImageApiUnreachable? then
        ProcessRun(Failure(ImageApiThrew), Some(prompt), None, None, false)
      else if replies.imageApi.body.NotJson? then
        ProcessRun(Failure(ImageApiNotJson), Some(prompt), None, None, false)
      else match ImageUrlField(replies.imageApi)
      case None => ProcessRun(Failure(NoImageInReply), Some(prompt), None, None, false)
      case Some(url) =>
        if url.None? || replies.download.Unreachable? then
          ProcessRun(Failure(DownloadThrew), Some(prompt), None, None, false)
        else
          var key := ProcessFileKey(generationId);
          if !replies.uploadAccepted then ProcessRun(Failure(UploadFailed), Some(prompt), None, None, false)
          else
            var stored := PublicUrl(prefix, key);
            var upload := Some((key, replies.download.body));
            if !replies.insertAccepted then ProcessRun(Failure(InsertFailed), Some(prompt), upload, None, false)
            else
              var row := Some(CalendarRow(generationId, stored, None));
              if !replies.updateAccepted then ProcessRun(Failure(UpdateFailed), Some(prompt), upload, row, false)
              else ProcessRun(Success(ProcessSuccess(stored, generationId)), Some(prompt), upload, row, true)
  }

  /**
    The generation is marked completed exactly when the request succeeds, and
    success needs the image stored under the generation's key and a row, with
    no month, pointing at its public URL; the body returns that URL.
   */
  lemma CompletedOnlyAfterStoring(
    prefix: string, wording: SceneWording, generationId: string, photoUrls: seq<string>, style: string, replies: ProcessReplies)
    requires |replies.visions| == |photoUrls|
    ensures var run := RunProcess(prefix, wording, generationId, photoUrls, style, replies);
      && (run.completed <==> run.result.Success?)
      && (run.result.Success? <==>
            && DescriptionsOf(replies.visions).Success?
            && ImageUrlField(replies.imageApi).Some? && ImageUrlField(replies.imageApi).value.Some?
            && replies.download.Downloaded?
            && replies.uploadAccepted && replies.insertAccepted && replies.updateAccepted)
      && (run.result.Success? ==>
            var url := PublicUrl(prefix, ProcessFileKey(generationId));
            && run.result.value == ProcessSuccess(url, generationId)
            && run.upload == Some((ProcessFileKey(generationId), replies.download.body))
            && run.insert == Some(CalendarRow(generationId, url, None))
            && HttpStatus(run.result) == 200)
  {
  }

  /**
    A failure leaves the generation's status alone and answers 500. A failure
    before the upload stores nothing; a rejected insert leaves the file; a
    rejected update leaves both the file and the row. An image request that
    throws, and a reply body that is not JSON, each have their own error.
   */
  lemma FailureLeavesStatus(
    prefix: string, wording: SceneWording, generationId: string, photoUrls: seq<string>, style: string, replies: ProcessReplies)
    requires |replies.visions| == |photoUrls|
    ensures var run := RunProcess(prefix, wording, generationId, photoUrls, style, replies);
      run.result.Failure? ==>
        && !run.completed && HttpStatus(run.result) == 500
        && (run.result.error !in {InsertFailed, UpdateFailed} ==> run.upload == None && run.insert == None)
        && (run.result.error == InsertFailed ==> run.upload.Some? && run.insert == None)
        && (run.result.error == UpdateFailed ==> run.upload.Some? && run.insert.Some?)
        && (run.result.error.VisionReplyMalformed? ==>
              run.prompt == None && replies.visions[run.result.error.photo].Malformed?)
        && (run.result.error == ImageApiThrew <==>
              DescriptionsOf(replies.visions).Success? && replies.imageApi.ImageApiUnreachable?)
        && (run.result.error == ImageApiNotJson <==>
              && DescriptionsOf(replies.visions).Success?
              && replies.imageApi.Responded? && replies.imageApi.body.NotJson?)
  {
  }

  /**
    Re-running a generation with success keeps one file under its key,
    holding the later image, and adds a second row pointing at it.
   */
  lemma RerunOverwritesFileButAddsRow(
    prefix: string, wording: SceneWording, generationId: string, photoUrls: seq<string>, style: string,
    first: ProcessReplies, second: ProcessReplies, files: map<string, Bytes>, rows: seq<CalendarRow>)
    requires |first.visions| == |photoUrls| && |second.visions| == |photoUrls|
    requires RunProcess(prefix, wording, generationId, photoUrls, style, first).result.Success?
    requires RunProcess(prefix, wording, generationId, photoUrls, style, second).result.Success?
    ensures var r1 := RunProcess(prefix, wording, generationId, photoUrls, style, first);
      var r2 := RunProcess(prefix, wording, generationId, photoUrls, style, second);
      var rows' := Appended(Appended(rows, r1.insert), r2.insert);
      && Upserted(Upserted(files, r1.upload), r2.upload) == files[ProcessFileKey(generationId) := second.download.body]
      && |rows'| == |rows| + 2
      && rows'[|rows|] == rows'[|rows| + 1]
  {
    CompletedOnlyAfterStoring(prefix, wording, generationId, photoUrls, style, first);
    CompletedOnlyAfterStoring(prefix, wording, generationId, photoUrls, style, second);
  }

  /**
    The status of the image download is not checked: a download answered
    with an error status still has its body stored as the calendar image, and
    the request can succeed.
   */
  lemma FailedDownloadIsStored(
    prefix: string, wording: SceneWording, generationId: string, photoUrls: seq<string>, style: string, replies: ProcessReplies)
    requires |replies.visions| == |photoUrls|
    requires DescriptionsOf(replies.visions).Success?
    requires ImageUrlField(replies.imageApi).Some? && ImageUrlField(replies.imageApi).value.Some?
    requires replies.download.Downloaded? && !replies.download.ok
    requires replies.uploadAccepted && replies.insertAccepted && replies.updateAccepted
    ensures var run := RunProcess(prefix, wording, generationId, photoUrls, style, replies);
      && run.result.Success?
      && run.upload == Some((ProcessFileKey(generationId), replies.download.body))
  {
  }

  /**
    The prompt is built from every photo's description: the dog count passed
    is the number of photos, which is the number of descriptions, so one
    photo gives the single-dog scene and any other number the multi-dog scene
    naming every description.
   */
  lemma PromptUsesEveryDescription(
    prefix: string, wording: SceneWording, generationId: string, photoUrls: seq<string>, style: string, replies: ProcessReplies, i: nat)
    requires |replies.visions| == |photoUrls|
    requires DescriptionsOf(replies.visions).Success?
    requires i < |photoUrls| && replies.visions[i].content.Str?
    ensures var run := RunProcess(prefix, wording, generationId, photoUrls, style, replies);
      && run.prompt.Some?
      && Contains(run.prompt.value, replies.visions[i].content.s)
  {
    var descriptions := DescriptionsOf(replies.visions).value;
    assert descriptions[i] == replies.visions[i].content;
    assert RunProcess(prefix, wording, generationId, photoUrls, style, replies).prompt
      == Some(SceneDescription(wording, style, descriptions, |photoUrls|));
    if |photoUrls| == 1 {
      SingleDogSceneUsesFirstDescription(wording, style, descriptions, []);
    } else {
      MultiDogSceneNamesEveryDog(wording, style, descriptions, |photoUrls|, i);
    }
  }

  /** The handler: each awaited step in turn, throwing at the first failure. */
  method HandleProcessRequest(
    db: Backend, wording: SceneWording, generationId: string, photoUrls: seq<string>, style: string, replies: ProcessReplies)
    returns (result: Result<ProcessSuccess, ProcessError>)
    requires |replies.visions| == |photoUrls|
    modifies db
    ensures var run := RunProcess(db.publicPrefix, wording, generationId, photoUrls, style, replies);
      && result == run.result
      && db.files == Upserted(old(db.files), run.upload)
      && db.calendarRows == Appended(old(db.calendarRows), run.insert)
      && db.generations ==
           if run.completed then MarkedCompleted(old(db.generations), generationId, replies.completedAt)
           else old(db.generations)
  {
    var described := DescribePhotos(photoUrls, replies.visions);
    if described.Failure? {
      return Failure(VisionReplyMalformed(described.error));
    }
    var prompt := SceneDescription(wording, style, described.value, |photoUrls|);
    if replies.imageApi.ImageApiUnreachable? {
      return Failure(ImageApiThrew);
    }
    if replies.imageApi.body.NotJson? {
      return Failure(ImageApiNotJson);
    }
    var url := ImageUrlField(replies.imageApi);
    if url.None? {
      return Failure(NoImageInReply);
    }
    if url.value.None? || replies.download.Unreachable? {
      return Failure(DownloadThrew);
    }
    var key := ProcessFileKey(generationId);
    var uploaded := db.Upload(key, replies.download.body, replies.uploadAccepted);
    if !uploaded {
      return Failure(UploadFailed);
    }
    var stored := PublicUrl(db.publicPrefix, key);
    var inserted := db.Insert(CalendarRow(generationId, stored, None), replies.insertAccepted);
    if !inserted {
      return Failure(InsertFailed);
    }
    var updated := db.MarkCompleted(generationId, replies.completedAt, replies.updateAccepted);
    if !updated {
      return Failure(UpdateFailed);
    }
    return Success(ProcessSuccess(stored, generationId));
  }
}
