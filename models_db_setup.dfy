/**
 * The model configurator (scripts/configure-models-db.py): the script it runs
 * inside the web UI's container, which stops when the config table is
 * missing, saves the connection settings, and then adds the four models.
 */
module ModelsDbSetup {
  import opened Wrappers
  import opened JsValues
  import opened WebuiDb

  /**
   * The script: check for the config table, read and update the document,
   * save and commit it, then insert the missing models. It fails before
   * writing anything when the table is missing or the document cannot be
   * updated.
   */
  method Configure(db: Database, now: int) returns (r: Result<nat, ScriptError>)
    modifies db
    ensures r.Failure? ==> db.configRows == old(db.configRows) && db.models == old(db.models)
    ensures !old(db.hasConfigTable) ==> r == Failure(NoConfigTable)
    ensures db.hasConfigTable == old(db.hasConfigTable)
    ensures r.Failure? <==>
      (!old(db.hasConfigTable) || UpdatedConfig(old(ConfigData(db)), GatewayUrls, GatewayKeys).Failure?)
    ensures r.Success? ==>
      && db.configRows == SavedConfig(old(db.configRows), old(db.FirstConfig()),
                                      UpdatedConfig(old(ConfigData(db)), GatewayUrls, GatewayKeys).value)
      && Inserted(db.models, r.value) == InsertAll(old(db.models), GatewayModels, now)
  {
    if !db.hasConfigTable {
      return Failure(NoConfigTable);
    }
    var read := db.FirstConfig();
    var data := if read.Some? then read.value.data else Obj(map[]);
    var updated := UpdatedConfig(data, GatewayUrls, GatewayKeys);
    if updated.Failure? {
      return Failure(updated.error);
    }
    db.SaveConfig(read, updated.value);
    var added := db.InsertModels(GatewayModels, now);
    r := Success(added);
  }

  /**
   * In the saved document, connection i (its URL, its key and its
   * `api_configs` entry) is the one model i uses and lists model i's id:
   * every model is served by a connection that offers it.
   */
  lemma DocumentServesModels(data: Value)
    requires UpdatedConfig(data, GatewayUrls, GatewayKeys).Success?
    ensures var d := UpdatedConfig(data, GatewayUrls, GatewayKeys).value;
      var section := d.fields["openai"];
      && d.fields["OPENAI_API_BASE_URLS"].Arr? && |d.fields["OPENAI_API_BASE_URLS"].items| == |GatewayModels|
      && d.fields["OPENAI_API_KEYS"].Arr? && |d.fields["OPENAI_API_KEYS"].items| == |GatewayModels|
      && section.Obj? && section.fields["api_configs"].Obj?
      && forall i | 0 <= i < |GatewayModels| ::
           && d.fields["OPENAI_API_BASE_URLS"].items[i] == Str(GatewayModels[i].baseUrl)
           && d.fields["OPENAI_API_KEYS"].items[i] == Str(GatewayModels[i].apiKey)
           && section.fields["api_configs"].fields[["0", "1", "2", "3"][i]].fields["model_ids"] == StrArr([GatewayModels[i].id])
  {
    UpdateKeepsOtherKeys(data, GatewayUrls, GatewayKeys);
    SectionSettings(data, GatewayUrls, GatewayKeys);
    GatewayModelsAligned();
  }
}
