/**
 * The relationship container: an ordered list of doctor-patient relationship records
 * with a `loading` flag and an optional `error` message, and its six synchronous reducers.
 */
module RelationshipSlice {
  import opened Wrappers
  import opened RecordList

  datatype Relationship = Relationship(id: Id, doctorId: string, patientId: string, status: string)

  /** The key every reducer matches on: `rel.id`. */
  function IdOf(r: Relationship): Id { r.id }

  class RelationshipStore {
    var relationships: seq<Relationship>
    var loading: bool
    var error: Option<string>

    /** `initialState`. */
    constructor ()
      ensures relationships == [] && !loading && error == None
    {
      relationships := [];
      loading := false;
      error := None;
    }

    method SetRelationships(payload: seq<Relationship>)
      modifies this
      ensures relationships == payload && !loading && error == None
    {
      relationships := payload;
      loading := false;
      error := None;
    }

    method AddRelationship(payload: Relationship)
      modifies this
      ensures relationships == old(relationships) + [payload]
      ensures !loading && error == None
    {
      relationships := relationships + [payload];
      loading := false;
      error := None;
    }

    method UpdateRelationship(payload: Relationship)
      modifies this
      ensures relationships == ReplaceFirst(old(relationships), IdOf, payload)
      ensures !loading && error == None
    {
      var index := FindIndex(relationships, IdOf, payload.id);
      if index != -1 {
        relationships := relationships[index := payload];
      }
      loading := false;
      error := None;
    }

    method DeleteRelationship(payload: Id)
      modifies this
      ensures relationships == RemoveId(old(relationships), IdOf, payload)
      ensures !loading && error == None
    {
      relationships := RemoveId(relationships, IdOf, payload);
      loading := false;
      error := None;
    }

    method SetLoading(payload: bool)
      modifies this`loading
      ensures loading == payload
    {
      loading := payload;
    }

    method SetError(payload: Option<string>)
      modifies this`error, this`loading
      ensures error == payload && !loading
    {
      error := payload;
      loading := false;
    }
  }
}
