/** The uniform result record every adapter operation returns. */
module AdapterResponses {
  import opened Wrappers

  /**
   * status, error, code and data, each defaulting as the record's constructor does. `data` is None
   * where the source holds None. Nothing links the four fields.
   */
  datatype Response<T> = Response(status: bool := true, error: string := "", code: int := 200,
                                  data: Option<T> := None)

  /** The record a successful operation builds: only `data` is given. */
  function Success<T>(payload: T): (r: Response<T>)
    ensures Consistent(r) && r.status && r.data == Some(payload)
  {
    Response(data := Some(payload))
  }

  /** A failure record: status false, the message and the code, no data. */
  function Failure<T>(error: string, code: int): (r: Response<T>)
    ensures !r.status && r.data.None? && r.code == code && r.error == error
    ensures Consistent(r) <==> error != ""
  {
    Response(status := false, error := error, code := code)
  }

  /** The relation between the fields that every response the adapter builds keeps. */
  predicate Consistent<T>(r: Response<T>)
  {
    && (r.status <==> r.error == "")
    && (r.status ==> r.code == 200)
    && (!r.status ==> r.data.None?)
  }

  /** The default record: success, no error, code 200, no data. */
  lemma DefaultResponse<T>()
    ensures var r: Response<T> := Response(); r.status && r.error == "" && r.code == 200 && r.data == None
  {
  }

  /** Each field is stored exactly as given. */
  lemma FieldsAsGiven<T>(status: bool, error: string, code: int, data: Option<T>)
    ensures var r := Response(status, error, code, data);
      r.status == status && r.error == error && r.code == code && r.data == data
  {
  }

  /** The record itself enforces nothing: a failure with code 200 and no message is representable. */
  lemma NoLinkEnforced()
    ensures var r: Response<int> := Response(status := false); r.code == 200 && r.error == "" && !Consistent(r)
  {
  }

  /** A success carries code 200, the empty error and the payload, and is consistent. */
  lemma SuccessShape<T>(payload: T)
    ensures Success(payload).status && Success(payload).code == 200 && Success(payload).error == ""
    ensures Success(payload).data == Some(payload) && Consistent(Success(payload))
  {
  }
}
