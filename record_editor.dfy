/**
 * The create/edit/delete pattern every record page repeats: a draft form,
 * `editingId` (null in create mode), the list of records and a `loading`
 * flag. A page supplies a `Schema` (its blank form, the form it loads from a
 * record, the record's id and the payload it builds from a form) and says
 * whether its gateway calls are live. Gateway outcomes, `confirm()` and the
 * refetched rows are parameters.
 */
module RecordEditor {
  import opened Js
  import opened FileUpload

  /** A write the page sends to its table. */
  datatype Request<D> = Insert(row: D) | Update(id: string, row: D) | Remove(id: string)

  /** The outcome of a `select`: an error, or a success whose data may be null. */
  datatype Fetched<R> = FetchError | FetchOk(data: Option<seq<R>>)

  /**
   * What a page contributes: the blank form for today's ISO timestamp, the
   * form `handleEdit` loads from a record, the record's id and the payload
   * `handleSubmit` builds at clock reading `now`.
   */
  datatype Schema<!F, !R, D> = Schema(blank: string -> F, load: R -> F, idOf: R -> string, build: (F, nat) -> D)

  /** `if (!error && data) setRows(data)`: the rows after a fetch. */
  function Refreshed<R>(rows: seq<R>, result: Fetched<R>): (r: seq<R>)
    ensures result.FetchOk? && result.data.Some? ==> r == result.data.value
    ensures !(result.FetchOk? && result.data.Some?) ==> r == rows
  {
    match result
    case FetchOk(Some(data)) => data
    case _ => rows
  }

  /** `if (editingId) update(...).eq('id', editingId) else insert([...])`. */
  function SubmitRequest<D>(editingId: Option<string>, payload: D): (r: Request<D>)
    ensures r.Update? <==> TruthyNullable(editingId)
    ensures r.Update? ==> r == Update(editingId.value, payload)
    ensures r.Insert? ==> r == Insert(payload)
  {
    if TruthyNullable(editingId) then Update(editingId.value, payload) else Insert(payload)
  }

  class Editor<F, R, D> {
    const schema: Schema<F, R, D>
    /** Whether the page's gateway calls are in place (they are commented out on most pages). */
    const live: bool
    var formData: F
    var editingId: Option<string>
    var records: seq<R>
    var loading: bool
    /** The picked image (only the fruit page sets one). */
    var imageFile: Option<File>

    /** The page as first rendered: blank form, create mode, no rows. */
    constructor(schema: Schema<F, R, D>, live: bool, today: string)
      ensures this.schema == schema && this.live == live
      ensures formData == schema.blank(today) && editingId == None
      ensures records == [] && !loading && imageFile == None
    {
      this.schema := schema;
      this.live := live;
      formData := schema.blank(today);
      editingId := None;
      records := [];
      loading := false;
      imageFile := None;
    }

    /** `fetchX`: loading while the select runs; rows replaced only by a successful select with data. */
    method Fetch(result: Fetched<R>)
      modifies this
      ensures records == (if live then Refreshed(old(records), result) else old(records))
      ensures !loading
      ensures formData == old(formData) && editingId == old(editingId) && imageFile == old(imageFile)
    {
      loading := true;
      if live {
        records := Refreshed(records, result);
      }
      loading := false;
    }

    /** `handleEdit`: the record's fields in the form and edit mode for its id. */
    method Edit(record: R)
      modifies this
      ensures formData == schema.load(record) && editingId == Some(schema.idOf(record))
      ensures records == old(records) && loading == old(loading) && imageFile == old(imageFile)
    {
      formData := schema.load(record);
      editingId := Some(schema.idOf(record));
    }

    /** `resetForm`: the blank form for today, create mode, no image. */
    method Reset(today: string)
      modifies this
      ensures formData == schema.blank(today) && editingId == None && imageFile == None
      ensures records == old(records) && loading == old(loading)
    {
      formData := schema.blank(today);
      imageFile := None;
      editingId := None;
    }

    /**
     * `handleSubmit`. A live page sends exactly one request (an update keyed
     * by `editingId` in edit mode, an insert otherwise); on success it resets
     * the form and refetches, on error nothing changes. A page whose calls are
     * commented out sends nothing and changes nothing.
     */
    method Submit(now: nat, succeeded: bool, today: string, refetch: Fetched<R>) returns (sent: Option<Request<D>>)
      modifies this
      ensures live ==> sent == Some(SubmitRequest(old(editingId), schema.build(old(formData), now)))
      ensures !live ==> sent == None
      ensures live && succeeded ==>
        formData == schema.blank(today) && editingId == None && imageFile == None &&
        records == Refreshed(old(records), refetch) && !loading
      ensures !(live && succeeded) ==>
        formData == old(formData) && editingId == old(editingId) && imageFile == old(imageFile) &&
        records == old(records) && loading == old(loading)
    {
      if !live {
        return None;
      }
      var payload := schema.build(formData, now);
      sent := Some(SubmitRequest(editingId, payload));
      if succeeded {
        Reset(today);
        Fetch(refetch);
      }
    }

    /**
     * `handleDelete`: nothing unless confirmed; a live page then sends one
     * delete for the id and refetches only when it succeeded. The form and
     * the mode are never touched.
     */
    method Delete(id: string, confirmed: bool, succeeded: bool, refetch: Fetched<R>) returns (sent: Option<Request<D>>)
      modifies this
      ensures sent == (if live && confirmed then Some(Remove(id)) else None)
      ensures records == (if live && confirmed && succeeded then Refreshed(old(records), refetch) else old(records))
      ensures loading == (if live && confirmed && succeeded then false else old(loading))
      ensures formData == old(formData) && editingId == old(editingId) && imageFile == old(imageFile)
    {
      sent := None;
      if confirmed && live {
        sent := Some(Remove(id));
        if succeeded {
          Fetch(refetch);
        }
      }
    }

    /**
     * The image picker's `onChange`: the file is kept, and for a file the
     * reader's data URL is written into the form with `withImage`.
     */
    method AttachImage(file: Option<File>, dataUrl: string, withImage: (F, string) -> F)
      modifies this
      ensures imageFile == file
      ensures formData == (if file.Some? then withImage(old(formData), dataUrl) else old(formData))
      ensures editingId == old(editingId) && records == old(records) && loading == old(loading)
    {
      imageFile := file;
      if file.Some? {
        formData := withImage(formData, dataUrl);
      }
    }
  }
}
