/**
  The services the edge functions call, reduced to what the handlers observe:
  the shape of an image-generation reply, the result of downloading an image,
  and the Supabase state they read and write (the `calendar_generations` and
  `calendars` tables and the `calendars` storage bucket). Whether a remote call
  is accepted is an input (an oracle), not something the model decides.
 */
module Platform {
  import opened Strings
  import opened Outcomes

  type Bytes = seq<bv8>

  /** What the `dog_descriptions` column holds: a JSON array of descriptions,
      or a single non-array value. */
  datatype StoredDescriptions = Listed(items: seq<JsString>) | Single(item: JsString)

  /** The columns of a `calendar_generations` row the handlers use. */
  datatype GenerationRow = GenerationRow(
    dogDescriptions: StoredDescriptions,
    artistStyle: string,
    status: string,
    completedAt: Option<string>)

  /** A `calendars` row; `month` is null when the writer does not set it. */
  datatype CalendarRow = CalendarRow(generationId: string, imageUrl: string, month: Option<int>)

  /** One element of the image API's `data` array: null, or an object whose
      `url` may be absent. */
  datatype ImageEntry = NullEntry | Entry(url: Option<string>)

  /** The body of an image-generation reply: `response.json()` throws, or it
      gives an object whose `data` field may be absent. */
  datatype ImageApiBody = NotJson | Json(data: Option<seq<ImageEntry>>)

  /** The image-generation request: `fetch` throws (a network error, say), or
      the endpoint answers with `response.ok`, its status, its body read as
      text, and its body read as JSON. */
  datatype ImageApiReply =
    | ImageApiUnreachable
    | Responded(ok: bool, status: int, text: string, body: ImageApiBody)

  /** The `data` field of a reply that parsed as JSON; absent otherwise. */
  function DataOf(reply: ImageApiReply): (r: Option<seq<ImageEntry>>)
    ensures r.Some? ==> reply.Responded? && reply.body.Json?
  {
    if reply.Responded? && reply.body.Json? then reply.body.data else None
  }

  /** `fetch(url)` of the generated image: it throws, or answers with a status and a body. */
  datatype DownloadReply = Unreachable | Downloaded(ok: bool, status: int, body: Bytes)

  /** The public URL Supabase storage gives for a key in the bucket. */
  function PublicUrl(prefix: string, key: string): string
  {
    prefix + key
  }

  /** Upload with `upsert: true`: the key now holds the new bytes, replacing any earlier ones. */
  function Upserted(files: map<string, Bytes>, upload: Option<(string, Bytes)>): map<string, Bytes>
  {
    match upload
    case None => files
    case Some(u) => files[u.0 := u.1]
  }

  /** A plain insert appends a row; nothing prevents a duplicate. */
  function Appended(rows: seq<CalendarRow>, insert: Option<CalendarRow>): seq<CalendarRow>
  {
    match insert
    case None => rows
    case Some(r) => rows + [r]
  }

  /** `update({status: 'completed', completed_at}).eq('id', id)`: a row that
      is not there is left alone. */
  function MarkedCompleted(generations: map<string, GenerationRow>, id: string, at: string): map<string, GenerationRow>
  {
    if id in generations
    then generations[id := generations[id].(status := "completed", completedAt := Some(at))]
    else generations
  }

  /**
    Storing under the same key twice leaves one file, holding the later bytes,
    and adds at most one key; inserting twice leaves two rows.
   */
  lemma UpsertOverwrites(files: map<string, Bytes>, key: string, first: Bytes, second: Bytes)
    ensures Upserted(Upserted(files, Some((key, first))), Some((key, second))) == files[key := second]
    ensures Upserted(Upserted(files, Some((key, first))), Some((key, second))).Keys == files.Keys + {key}
  {
  }

  /**
    Each write touches only what it names. An upload changes its own key and
    keeps every other file. An insert keeps the earlier rows in order and puts
    the new row last. The status update changes only that generation's status
    and completion time.
   */
  lemma WritesKeepTheRest(
    files: map<string, Bytes>, key: string, bytes: Bytes, rows: seq<CalendarRow>, row: CalendarRow,
    generations: map<string, GenerationRow>, id: string, at: string)
    ensures var f := Upserted(files, Some((key, bytes)));
      && f.Keys == files.Keys + {key} && f[key] == bytes
      && forall k :: k in files && k != key ==> f[k] == files[k]
    ensures var r := Appended(rows, Some(row));
      && |r| == |rows| + 1 && r[..|rows|] == rows && r[|rows|] == row
    ensures var g := MarkedCompleted(generations, id, at);
      && g.Keys == generations.Keys
      && (forall k :: k in generations && k != id ==> g[k] == generations[k])
      && (id in generations ==>
            && g[id].status == "completed" && g[id].completedAt == Some(at)
            && g[id].dogDescriptions == generations[id].dogDescriptions
            && g[id].artistStyle == generations[id].artistStyle)
  {
  }

  /** The Supabase project as the two handlers see it. */
  class Backend {
    var generations: map<string, GenerationRow>
    var files: map<string, Bytes>
    var calendarRows: seq<CalendarRow>
    const publicPrefix: string

    constructor (generations: map<string, GenerationRow>, publicPrefix: string)
      ensures this.generations == generations && this.publicPrefix == publicPrefix
      ensures files == map[] && calendarRows == []
    {
      this.generations := generations;
      this.publicPrefix := publicPrefix;
      files := map[];
      calendarRows := [];
    }

    /** `storage.from('calendars').upload(key, bytes, {upsert: true})`; `accepted`
        is whether the service reports no error. */
    method Upload(key: string, bytes: Bytes, accepted: bool) returns (ok: bool)
      modifies this`files
      ensures ok == accepted
      ensures files == Upserted(old(files), if ok then Some((key, bytes)) else None)
    {
      ok := accepted;
      if ok {
        files := files[key := bytes];
      }
    }

    /** `from('calendars').insert(row)`. */
    method Insert(row: CalendarRow, accepted: bool) returns (ok: bool)
      modifies this`calendarRows
      ensures ok == accepted
      ensures calendarRows == Appended(old(calendarRows), if ok then Some(row) else None)
    {
      ok := accepted;
      if ok {
        calendarRows := calendarRows + [row];
      }
    }

    /** `from('calendar_generations').update({status: 'completed', completed_at: at}).eq('id', id)`. */
    method MarkCompleted(id: string, at: string, accepted: bool) returns (ok: bool)
      modifies this`generations
      ensures ok == accepted
      ensures generations == if ok then MarkedCompleted(old(generations), id, at) else old(generations)
    {
      ok := accepted;
      if ok {
        generations := MarkedCompleted(generations, id, at);
      }
    }
  }
}
