/** Configuration lookups shared by the API routes: required environment variables and the
    operator credentials of the ledger client. */
module Hedera {
  import opened Wrappers
  import opened Text

  /** The process environment: variable name to value. */
  type Env = map<string, string>

  /** `getRequiredEnv`: the value of a variable that is set to a non-empty string; a missing or
      empty variable throws an error that names it. */
  function GetRequiredEnv(env: Env, name: string): (r: Result<string, string>)
    ensures r.Ok? <==> name in env && env[name] != ""
    ensures r.Ok? ==> r.value == env[name]
    ensures r.Err? ==> r.error == "Missing required env var: " + name
  {
    if name in env && env[name] != "" then Ok(env[name])
    else Err("Missing required env var: " + name)
  }

  /** The error message of a failed lookup mentions the variable's name. */
  lemma MissingEnvNamesVariable(env: Env, name: string)
    requires GetRequiredEnv(env, name).Err?
    ensures Contains(GetRequiredEnv(env, name).error, name)
  {
    var prefix := "Missing required env var: ";
    var msg := prefix + name;
    assert msg[|prefix|..|prefix| + |name|] == name;
    assert OccursAt(msg, name, |prefix|);
  }

  /** The operator account and key the ledger client signs with. */
  datatype Client = Client(operatorId: string, operatorKey: string)

  const OperatorIdVar := "HEDERA_OPERATOR_ID"
  const OperatorKeyVar := "HEDERA_OPERATOR_KEY"
  const MissingOperatorMessage := "Missing HEDERA_OPERATOR_ID or HEDERA_OPERATOR_KEY env vars"

  /** `getHederaClient`: a testnet client for the configured operator; it throws when either the
      operator id or the operator key is missing or empty. */
  function GetHederaClient(env: Env): (r: Result<Client, string>)
    ensures r.Ok? <==> GetRequiredEnv(env, OperatorIdVar).Ok? && GetRequiredEnv(env, OperatorKeyVar).Ok?
    ensures r.Ok? ==> r.value == Client(env[OperatorIdVar], env[OperatorKeyVar])
    ensures r.Err? ==> r.error == MissingOperatorMessage
  {
    var id := if OperatorIdVar in env then env[OperatorIdVar] else "";
    var key := if OperatorKeyVar in env then env[OperatorKeyVar] else "";
    if id == "" || key == "" then Err(MissingOperatorMessage)
    else Ok(Client(id, key))
  }
}
