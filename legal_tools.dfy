/**
 * The write-protected legal tag tools. Each is a guarded sequence: a check that
 * needs no client, then the authentication handler and the Legal client are
 * built, one client call is made, the result is shaped, and the client is closed
 * on every path once it exists.
 *
 * The tools return the client they built (null when none was built) so that its
 * request trace and its close count can be stated. One `partition` stands for
 * both the configured data partition and the client's partition.
 */
module LegalTools {
  import opened Wrappers
  import opened Environ
  import opened Errors
  import opened Json
  import opened Legal
  import Auth

  const ConfirmRequiredMessage :=
    "Deletion not confirmed. Set confirm=true to delete the legal tag. WARNING: This will invalidate all associated data."
  const DeletedWarning := "Associated data is now invalid"
  const WriteModeVar := "OSDU_MCP_ENABLE_WRITE_MODE"
  const WriteDisabledMessage :=
    "Legal tag write operations are disabled. Set OSDU_MCP_ENABLE_WRITE_MODE=true to enable write operations"

  /** The payload of a successful legaltag_delete. */
  function DeleteResult(fullName: string, partition: string): Value {
    Obj(map["success" := Bool(true), "deleted" := Bool(true), "name" := Str(fullName),
            "delete_enabled" := Bool(true), "partition" := Str(partition), "warning" := Str(DeletedWarning)])
  }

  /** The payload of a successful legaltag_update. */
  function UpdateResult(tag: Value, partition: string): Value {
    Obj(map["success" := Bool(true), "legalTag" := tag, "updated" := Bool(true),
            "write_enabled" := Bool(true), "partition" := Str(partition)])
  }

  /** legaltag_delete */
  method LegaltagDelete(env: Env, partition: string, basePath: string, answer: (nat, string) -> Auth.FetchOutcome,
                        transport: Transport, name: string, confirm: bool)
    returns (r: Result<Value, Failure>, client: LegalClient?)
    ensures !confirm ==> r == Failure(ApiError(ConfirmRequiredMessage, 400)) && client == null
    ensures confirm && Auth.Initialize(env).Failure? ==> r == Failure(Auth.Initialize(env).error) && client == null
    ensures confirm && Auth.Initialize(env).Success? ==>
      && client != null && fresh(client) && client.closeCalls == 1
      && client.partition == partition && client.basePath == basePath && client.transport == transport
      && (CheckDeletePermission(env).Some? ==>
            client.trace == [] && r == Failure(CheckDeletePermission(env).value))
      && (CheckDeletePermission(env).None? ==>
            var req := Request(Delete, basePath + "/legaltags/" + EnsureFullTagName(partition, name), None, None);
            && client.trace == [req]
            && (transport(0, req).Success? ==> r == Success(DeleteResult(EnsureFullTagName(partition, name), partition)))
            && (transport(0, req).Failure? ==> r == transport(0, req)))
  {
    if !confirm {
      return Failure(ApiError(ConfirmRequiredMessage, 400)), null;
    }
    var auth := Auth.AuthHandler.Create(env, answer);
    if auth.Failure? {
      return Failure(auth.error), null;
    }
    var c := new LegalClient(partition, basePath, auth.value, transport);
    client := c;
    var deleted := c.DeleteLegalTag(env, name);
    if deleted.Success? {
      r := Success(DeleteResult(EnsureFullTagName(c.partition, name), partition));
    } else {
      r := Failure(deleted.error);
    }
    c.Close();
  }

  /** legaltag_update */
  method LegaltagUpdate(env: Env, partition: string, basePath: string, answer: (nat, string) -> Auth.FetchOutcome,
                        transport: Transport, name: string, description: Option<string>, contractId: Option<string>,
                        expirationDate: Option<string>, extensionProperties: Option<map<string, Value>>)
    returns (r: Result<Value, Failure>, client: LegalClient?)
    ensures !FlagEnabled(env, WriteModeVar) ==> r == Failure(ApiError(WriteDisabledMessage, 403)) && client == null
    ensures FlagEnabled(env, WriteModeVar) && Auth.Initialize(env).Failure? ==>
      r == Failure(Auth.Initialize(env).error) && client == null
    ensures FlagEnabled(env, WriteModeVar) && Auth.Initialize(env).Success? ==>
      && client != null && fresh(client) && client.closeCalls == 1
      && client.partition == partition && client.basePath == basePath && client.transport == transport
      && var req := Request(Put, basePath + "/legaltags", None, Some(Obj(
           UpdateBody(partition, name, description, contractId, expirationDate, extensionProperties))));
         && client.trace == [req]
         && (transport(0, req).Success? ==> r == Success(UpdateResult(transport(0, req).value, partition)))
         && (transport(0, req).Failure? ==> r == transport(0, req))
  {
    if !FlagEnabled(env, WriteModeVar) {
      return Failure(ApiError(WriteDisabledMessage, 403)), null;
    }
    var auth := Auth.AuthHandler.Create(env, answer);
    if auth.Failure? {
      return Failure(auth.error), null;
    }
    var c := new LegalClient(partition, basePath, auth.value, transport);
    client := c;
    var response := c.UpdateLegalTag(name, description, contractId, expirationDate, extensionProperties);
    if response.Success? {
      r := Success(UpdateResult(response.value, partition));
    } else {
      r := Failure(response.error);
    }
    c.Close();
  }
}
