/** Submission of the assembled schema to the storage engine, and the translation of
    the engine's answer into the status the request returns. */
module Submission {
  import opened Errors
  import opened Meta

  /** One call of CreateHybridCollection, as the engine received it. */
  datatype Submitted = Submitted(info: CollectionSchema, fields: seq<FieldSchema>)

  /** What the engine's create call does: return a status, or throw. */
  datatype DbReply = Returned(status: Status) | Threw(ex: Exception)

  /** The storage engine (DBWrapper::DB()). Its answer to a create call is a given
      function of the submitted schema; the object records every call it receives. */
  class StorageEngine {
    const respond: (CollectionSchema, seq<FieldSchema>) -> DbReply
    var submissions: seq<Submitted>

    constructor(respond: (CollectionSchema, seq<FieldSchema>) -> DbReply)
      ensures this.respond == respond && submissions == []
    {
      this.respond := respond;
      submissions := [];
    }

    method CreateHybridCollection(info: CollectionSchema, fields: seq<FieldSchema>) returns (reply: DbReply)
      modifies this
      ensures submissions == old(submissions) + [Submitted(info, fields)]
      ensures reply == respond(info, fields)
    {
      submissions := submissions + [Submitted(info, fields)];
      reply := respond(info, fields);
    }
  }

  /** The status returned after the create call. A thrown exception becomes an unexpected
      error carrying its message; the fault point invalid_db_execute replaces the engine's
      status by an unexpected error with an empty message; "already exists" is reported
      as an invalid collection name with the engine's message; any other failure is
      passed through unchanged; success yields Status::OK(). */
  function Translate(reply: DbReply, forceFailure: bool): (s: Status)
    ensures s.IsOk() <==> reply.Returned? && reply.status.IsOk() && !forceFailure
    ensures s.IsOk() ==> s == OK
    ensures s.code != DbAlreadyExist
    ensures reply.Threw? ==> s == Status(ServerUnexpectedError, What(reply.ex))
    ensures reply.Returned? && forceFailure ==> s == Status(ServerUnexpectedError, "")
    ensures reply.Returned? && !forceFailure && reply.status.code == DbAlreadyExist ==>
      s == Status(ServerInvalidCollectionName, reply.status.message)
    ensures reply.Returned? && !forceFailure && !reply.status.IsOk() && reply.status.code != DbAlreadyExist ==>
      s == reply.status
  {
    match reply
    case Threw(e) => Unexpected(e)
    case Returned(status) =>
      var status := if forceFailure then Status(ServerUnexpectedError, "") else status;
      if status.IsOk() then OK
      else if status.code == DbAlreadyExist then Status(ServerInvalidCollectionName, status.message)
      else status
  }
}
