/** The configuration check both entry points run before anything else
    (`load_config`), and the identity values they read from an accepted
    configuration. Opening and parsing `config.json` is not modelled: the
    functions take the decoded document. */
module Config {
  import opened Wrappers
  import opened Json
  import opened Text

  /** Why `load_config` refused a configuration: one of its two `ValueError`s,
      or a Python exception raised while probing a value of the wrong type. */
  datatype ConfigError = OpenAIKeyMissing | RecallioIncomplete | Malformed

  const DefaultUserId: string := "default_user"

  /** `section` is a JSON object holding a truthy value under `key`. */
  predicate HasTruthy(section: Json, key: string) {
    section.JObj? && key in section.fields && Truthy(section.fields[key])
  }

  /** The OpenAI part of the rule: an `openai` object with a truthy `api_key`. */
  predicate OpenAIKeyPresent(cfg: Json) {
    cfg.JObj? && "openai" in cfg.fields && HasTruthy(cfg.fields["openai"], "api_key")
  }

  /** The acceptance rule both entry points implement: `openai.api_key`,
      `recallio.api_key` and `recallio.project_id` all present and truthy. */
  predicate Accepted(cfg: Json) {
    && OpenAIKeyPresent(cfg)
    && "recallio" in cfg.fields
    && HasTruthy(cfg.fields["recallio"], "api_key")
    && HasTruthy(cfg.fields["recallio"], "project_id")
  }

  /** `load_config` of the desktop client, which probes with
      `cfg.get(section, {}).get(key)`; `.get` on a non-object raises. */
  function GuiLoadConfig(cfg: Json): (r: Result<Json, ConfigError>)
    ensures r.Ok? <==> Accepted(cfg)
    ensures r.Ok? ==> r.value == cfg
    ensures r == Err(RecallioIncomplete) ==> OpenAIKeyPresent(cfg)
  {
    if !cfg.JObj? then Err(Malformed)
    else
      var openai := GetOr(cfg.fields, "openai", JObj(map[]));
      if !openai.JObj? then Err(Malformed)
      else if !Truthy(GetOr(openai.fields, "api_key", JNull)) then Err(OpenAIKeyMissing)
      else
        var rc := GetOr(cfg.fields, "recallio", JObj(map[]));
        if !rc.JObj? then Err(Malformed)
        else if !Truthy(GetOr(rc.fields, "api_key", JNull)) || !Truthy(GetOr(rc.fields, "project_id", JNull))
        then Err(RecallioIncomplete)
        else Ok(cfg)
  }

  /** `load_config` of the HTTP server, which first tests `'openai' in config`
      and then indexes `config['openai']`. On a top-level array or string the
      `in` test is a membership or substring test; on a scalar it raises. */
  function ServerLoadConfig(config: Json): (r: Result<Json, ConfigError>)
    ensures r.Ok? <==> Accepted(config)
    ensures r.Ok? ==> r.value == config
    ensures r == Err(RecallioIncomplete) ==> OpenAIKeyPresent(config)
  {
    match config
    case JObj(fields) =>
      if "openai" !in fields then Err(OpenAIKeyMissing)
      else if !fields["openai"].JObj? then Err(Malformed)
      else if !Truthy(GetOr(fields["openai"].fields, "api_key", JNull)) then Err(OpenAIKeyMissing)
      else
        var rc := GetOr(fields, "recallio", JObj(map[]));
        if !rc.JObj? then Err(Malformed)
        else if !Truthy(GetOr(rc.fields, "api_key", JNull)) || !Truthy(GetOr(rc.fields, "project_id", JNull))
        then Err(RecallioIncomplete)
        else Ok(config)
    case JArr(items) =>
      if JStr("openai") in items then Err(Malformed) else Err(OpenAIKeyMissing)
    case JStr(s) =>
      if ContainsText(s, "openai") then Err(Malformed) else Err(OpenAIKeyMissing)
    case _ => Err(Malformed)
  }

  /** On a configuration that is a JSON object the two copies of `load_config`
      agree exactly in the model, error kind included (their message texts,
      which the model does not keep, differ); the kinds differ only in which
      error a non-object document draws. */
  lemma LoadConfigsAgreeOnObjects(cfg: Json)
    requires cfg.JObj?
    ensures GuiLoadConfig(cfg) == ServerLoadConfig(cfg)
  {
  }

  /** An empty top-level array shows the difference: the desktop client fails
      on `.get`, the server reports a missing OpenAI key. */
  lemma LoadConfigsDifferOnArrays()
    ensures GuiLoadConfig(JArr([])) == Err(Malformed)
    ensures ServerLoadConfig(JArr([])) == Err(OpenAIKeyMissing)
  {
  }

  /** `cfg['recallio'].get('user_id', 'default_user')`. */
  function UserIdOf(cfg: Json): (r: Json)
    requires Accepted(cfg)
    ensures "user_id" in cfg.fields["recallio"].fields ==> r == cfg.fields["recallio"].fields["user_id"]
    ensures "user_id" !in cfg.fields["recallio"].fields ==> r == JStr(DefaultUserId)
  {
    GetOr(cfg.fields["recallio"].fields, "user_id", JStr(DefaultUserId))
  }

  /** `cfg['recallio']['project_id']`, which acceptance guarantees is truthy. */
  function ProjectIdOf(cfg: Json): (r: Json)
    requires Accepted(cfg)
    ensures Truthy(r)
  {
    cfg.fields["recallio"].fields["project_id"]
  }
}
