/**
 * The web UI's database as the setup scripts change it: the `config` table,
 * whose JSON document holds the connection settings, and the `model` table,
 * keyed by model id. The scripts that run inside the web UI's container
 * (init/openwebui/init-openwebui.py, scripts/configure-openwebui-connections.py,
 * scripts/configure-models-db.py) all follow one recipe: read the first config
 * row, update its document, save it, and insert every listed model that is not
 * already in the table.
 */
module WebuiDb {
  import opened Wrappers
  import opened Text
  import opened JsValues

  datatype ConfigRow = ConfigRow(id: int, data: Value)

  datatype ModelRow = ModelRow(id: string, userId: string, baseModelId: string, name: string,
                               meta: Value, params: Value, createdAt: int, updatedAt: int,
                               isActive: int, accessControl: Value)

  /** A model the script wants in the table. */
  datatype NewModel = NewModel(id: string, name: string, baseUrl: string, apiKey: string)

  /** Why a script stops before writing anything. */
  datatype ScriptError =
    | NoConfigTable      // the config table is missing
    | DataNotObject      // the stored document is not a JSON object
    | OpenaiNotObject    // its 'openai' entry exists but is not a JSON object

  /** The access rules of a new model: no group and no user may read or write it beyond the defaults. */
  const NoAccessRules := Obj(map["read" := Obj(map["group_ids" := Arr([]), "user_ids" := Arr([])]),
                                 "write" := Obj(map["group_ids" := Arr([]), "user_ids" := Arr([])])])

  /** The row inserted for `m`, the `position`-th model added by this run, at time `now`. */
  function ModelRowOf(m: NewModel, position: nat, now: int): ModelRow {
    ModelRow(m.id, "", m.id, m.name,
             Obj(map["profile_image_url" := Str("/static/favicon.png"),
                     "description" := Str(m.name + " via AgentGateway"),
                     "capabilities" := Obj(map[]),
                     "position" := Num(position)]),
             Obj(map["api_base_url" := Str(m.baseUrl), "api_key" := Str(m.apiKey), "stream" := Bool(true)]),
             now, now, 1, NoAccessRules)
  }

  /** The `position` recorded in a row's metadata. */
  function PositionOf(row: ModelRow): int {
    var p := OptionalMember(row.meta, "position");
    if p.Num? then p.n else -1
  }

  // ---------------------------------------------------------------------
  // The config document

  /** The models each of the four connections offers, by connection index. */
  const ConfiguredModelIds := ["claude-haiku-4-5-20251001", "gpt-5.2-2025-12-11", "grok-4-latest", "gemini-3-pro-preview"]

  /** The four model ids are distinct. */
  lemma ConfiguredModelIdsDistinct()
    ensures |ConfiguredModelIds| == 4
    ensures forall i, j | 0 <= i < j < 4 :: ConfiguredModelIds[i] != ConfiguredModelIds[j]
  {
    var ids := ConfiguredModelIds;
    assert ids[0][0] == 'c' && ids[1][0] == 'g' && ids[2][0] == 'g' && ids[3][0] == 'g';
    assert ids[1][1] == 'p' && ids[2][1] == 'r' && ids[3][1] == 'e';
  }

  /** One connection's settings: enabled, external, bearer auth, no tags or prefix, one model. */
  function ApiConfig(modelId: string): Value {
    Obj(map["enable" := Bool(true), "tags" := Arr([]), "prefix_id" := Str(""),
            "model_ids" := StrArr([modelId]), "connection_type" := Str("external"), "auth_type" := Str("bearer")])
  }

  /** The `api_configs` entry: connection '0' to '3', each with its model. */
  const ApiConfigs := Obj(map["0" := ApiConfig(ConfiguredModelIds[0]), "1" := ApiConfig(ConfiguredModelIds[1]),
                              "2" := ApiConfig(ConfiguredModelIds[2]), "3" := ApiConfig(ConfiguredModelIds[3])])

  /** The top-level keys the update writes. */
  const ListedKeys := {"ENABLE_OPENAI_API", "OPENAI_API_BASE_URLS", "OPENAI_API_KEYS", "openai", "ENABLE_MODEL_FILTER"}

  /** The keys the update writes inside the 'openai' section. */
  const SectionKeys := {"enable", "api_base_urls", "api_keys", "api_configs"}

  /** The 'openai' section after the update: the listed keys set, every other key kept. */
  function UpdatedSection(section: map<string, Value>, urls: seq<string>, keys: seq<string>): map<string, Value> {
    section["enable" := Bool(true)]["api_base_urls" := StrArr(urls)]["api_keys" := StrArr(keys)]["api_configs" := ApiConfigs]
  }

  /**
   * The config update: the OpenAI settings written at the top level and in the
   * 'openai' section (created only when absent), and model filtering off.
   * Indexing into a document or section that is not an object raises.
   */
  function UpdatedConfig(data: Value, urls: seq<string>, keys: seq<string>): (r: Result<Value, ScriptError>)
    ensures r.Success? <==> data.Obj? && ("openai" in data.fields ==> data.fields["openai"].Obj?)
  {
    if !data.Obj? then Failure(DataNotObject)
    else
      var top := data.fields["ENABLE_OPENAI_API" := Bool(true)]["OPENAI_API_BASE_URLS" := StrArr(urls)]["OPENAI_API_KEYS" := StrArr(keys)];
      var section := if "openai" in top then top["openai"] else Obj(map[]);
      if !section.Obj? then Failure(OpenaiNotObject)
      else Success(Obj(top["openai" := Obj(UpdatedSection(section.fields, urls, keys))]["ENABLE_MODEL_FILTER" := Bool(false)]))
  }

  /**
   * The update writes exactly the listed keys: every other key of the
   * document and of an existing 'openai' section keeps its value, and a
   * missing section is created with only the listed keys.
   */
  lemma UpdateKeepsOtherKeys(data: Value, urls: seq<string>, keys: seq<string>)
    requires UpdatedConfig(data, urls, keys).Success?
    ensures var d := UpdatedConfig(data, urls, keys).value;
      && d.Obj? && d.fields.Keys == data.fields.Keys + ListedKeys
      && (forall k | k in data.fields && k !in ListedKeys :: d.fields[k] == data.fields[k])
      && d.fields["ENABLE_OPENAI_API"] == Bool(true) && d.fields["ENABLE_MODEL_FILTER"] == Bool(false)
      && d.fields["OPENAI_API_BASE_URLS"] == StrArr(urls) && d.fields["OPENAI_API_KEYS"] == StrArr(keys)
      && d.fields["openai"].Obj?
      && ("openai" in data.fields ==>
            && d.fields["openai"].fields.Keys == data.fields["openai"].fields.Keys + SectionKeys
            && forall k | k in data.fields["openai"].fields && k !in SectionKeys ::
                 d.fields["openai"].fields[k] == data.fields["openai"].fields[k])
      && ("openai" !in data.fields ==> d.fields["openai"].fields.Keys == SectionKeys)
  {
  }

  /** The section lists the same URLs and keys as the top level, and exactly four connection settings, '0' to '3'. */
  lemma SectionSettings(data: Value, urls: seq<string>, keys: seq<string>)
    requires UpdatedConfig(data, urls, keys).Success?
    ensures var d := UpdatedConfig(data, urls, keys).value;
      var section := d.fields["openai"];
      && section.Obj?
      && section.fields["enable"] == Bool(true)
      && section.fields["api_base_urls"] == d.fields["OPENAI_API_BASE_URLS"]
      && section.fields["api_keys"] == d.fields["OPENAI_API_KEYS"]
      && section.fields["api_configs"].Obj?
      && section.fields["api_configs"].fields.Keys == {"0", "1", "2", "3"}
      && forall i | 0 <= i < 4 ::
           var c := section.fields["api_configs"].fields[["0", "1", "2", "3"][i]];
           && c.Obj? && c.fields["enable"] == Bool(true) && c.fields["model_ids"] == StrArr([ConfiguredModelIds[i]])
  {
    var top := data.fields["ENABLE_OPENAI_API" := Bool(true)]["OPENAI_API_BASE_URLS" := StrArr(urls)]["OPENAI_API_KEYS" := StrArr(keys)];
    var section := if "openai" in top then top["openai"] else Obj(map[]);
    var updated := UpdatedSection(section.fields, urls, keys);
    assert UpdatedConfig(data, urls, keys).value.fields["openai"] == Obj(updated);
    ApiConfigsEntries();
  }

  /** Connection settings '0' to '3', the i-th enabled and offering the i-th model. */
  lemma ApiConfigsEntries()
    ensures ApiConfigs.Obj? && ApiConfigs.fields.Keys == {"0", "1", "2", "3"}
    ensures forall i | 0 <= i < 4 ::
      var c := ApiConfigs.fields[["0", "1", "2", "3"][i]];
      && c.Obj? && c.fields["enable"] == Bool(true) && c.fields["model_ids"] == StrArr([ConfiguredModelIds[i]])
  {
    var names := ["0", "1", "2", "3"];
    forall i | 0 <= i < 4
      ensures var c := ApiConfigs.fields[names[i]];
        c.Obj? && c.fields["enable"] == Bool(true) && c.fields["model_ids"] == StrArr([ConfiguredModelIds[i]])
    {
      assert ApiConfigs.fields[names[i]] == ApiConfig(ConfiguredModelIds[i]);
    }
  }

  /** Where the saved document goes: UPDATE of the row that was read, or INSERT with id 1 when there was none. */
  function SavedConfig(rows: seq<ConfigRow>, read: Option<ConfigRow>, data: Value): (r: seq<ConfigRow>)
    ensures read.None? ==> r == rows + [ConfigRow(1, data)]
    ensures read.Some? ==> |r| == |rows| && forall i | 0 <= i < |rows| ::
      r[i] == (if rows[i].id == read.value.id then ConfigRow(rows[i].id, data) else rows[i])
  {
    if read.Some? then
      seq(|rows|, i requires 0 <= i < |rows| => if rows[i].id == read.value.id then ConfigRow(rows[i].id, data) else rows[i])
    else rows + [ConfigRow(1, data)]
  }

  // ---------------------------------------------------------------------
  // The model table

  /** The table after a run of inserts, and how many rows were added. */
  datatype Inserted = Inserted(table: map<string, ModelRow>, added: nat)

  /** Each listed model in turn: skipped when its id is in the table, otherwise inserted at the next position. */
  function InsertAll(table: map<string, ModelRow>, models: seq<NewModel>, now: int): Inserted
    decreases |models|
  {
    if models == [] then Inserted(table, 0)
    else
      var before := InsertAll(table, models[..|models| - 1], now);
      var m := models[|models| - 1];
      if m.id in before.table then before
      else Inserted(before.table[m.id := ModelRowOf(m, before.added, now)], before.added + 1)
  }

  /** The ids a run inserts, in the order it inserts them. */
  function NewIds(table: map<string, ModelRow>, models: seq<NewModel>, now: int): seq<string>
    decreases |models|
  {
    if models == [] then []
    else
      var before := InsertAll(table, models[..|models| - 1], now);
      var m := models[|models| - 1];
      NewIds(table, models[..|models| - 1], now) + (if m.id in before.table then [] else [m.id])
  }

  /**
   * Inserting never alters an existing row; the rows added are exactly the
   * listed ids that were absent, `added` counts them, and the k-th one added
   * records position k.
   */
  lemma {:induction false} InsertAllCorrect(table: map<string, ModelRow>, models: seq<NewModel>, now: int)
    ensures var r := InsertAll(table, models, now);
      var ids := NewIds(table, models, now);
      && (forall id | id in table :: id in r.table && r.table[id] == table[id])
      && (forall id :: id in r.table <==> id in table || exists j | 0 <= j < |models| :: models[j].id == id)
      && |ids| == r.added
      && (forall k | 0 <= k < |ids| :: ids[k] in r.table && ids[k] !in table && PositionOf(r.table[ids[k]]) == k)
      && (forall id | id in r.table && id !in table :: id in ids)
      && (forall k, l | 0 <= k < l < |ids| :: ids[k] != ids[l])
      && (forall id | id in r.table :: r.table[id].id == id || id in table)
  {
    InsertAllRows(table, models, now);
    InsertAllKeys(table, models, now);
  }

  /** The rows a run adds: their ids, positions and count. */
  lemma InsertAllRows(table: map<string, ModelRow>, models: seq<NewModel>, now: int)
    ensures var r := InsertAll(table, models, now);
      var ids := NewIds(table, models, now);
      && (forall id | id in table :: id in r.table && r.table[id] == table[id])
      && |ids| == r.added
      && (forall k | 0 <= k < |ids| :: ids[k] in r.table && ids[k] !in table && PositionOf(r.table[ids[k]]) == k)
      && (forall id | id in r.table && id !in table :: id in ids)
      && (forall k, l | 0 <= k < l < |ids| :: ids[k] != ids[l])
      && (forall id | id in r.table :: r.table[id].id == id || id in table)
  {
    InsertAllKeeps(table, models, now);
    InsertAllNewIds(table, models, now);
  }

  /** A run keeps every existing row, and each row it adds is stored under its own id. */
  lemma {:induction false} InsertAllKeeps(table: map<string, ModelRow>, models: seq<NewModel>, now: int)
    ensures var r := InsertAll(table, models, now);
      && (forall id | id in table :: id in r.table && r.table[id] == table[id])
      && (forall id | id in r.table :: r.table[id].id == id || id in table)
    decreases |models|
  {
    if models != [] {
      InsertAllKeeps(table, models[..|models| - 1], now);
    }
  }

  /** The ids a run adds: distinct, absent before, numbered by position, and counted by `added`. */
  lemma {:induction false} InsertAllNewIds(table: map<string, ModelRow>, models: seq<NewModel>, now: int)
    ensures var r := InsertAll(table, models, now);
      var ids := NewIds(table, models, now);
      && |ids| == r.added
      && (forall k | 0 <= k < |ids| :: ids[k] in r.table && ids[k] !in table && PositionOf(r.table[ids[k]]) == k)
      && (forall id | id in r.table && id !in table :: id in ids)
      && (forall k, l | 0 <= k < l < |ids| :: ids[k] != ids[l])
    decreases |models|
  {
    if models != [] {
      var init := models[..|models| - 1];
      InsertAllNewIds(table, init, now);
      InsertAllKeeps(table, init, now);
    }
  }

  /** The ids in the table after a run: those before it and the listed ones. */
  lemma {:induction false} InsertAllKeys(table: map<string, ModelRow>, models: seq<NewModel>, now: int)
    ensures forall id :: id in InsertAll(table, models, now).table <==>
      id in table || exists j | 0 <= j < |models| :: models[j].id == id
    decreases |models|
  {
    if models != [] {
      var init := models[..|models| - 1];
      InsertAllKeys(table, init, now);
      var r := InsertAll(table, models, now);
      forall id ensures id in r.table <==> id in table || exists j | 0 <= j < |models| :: models[j].id == id {
        if exists j | 0 <= j < |init| :: init[j].id == id {
          var j :| 0 <= j < |init| && init[j].id == id;
          assert models[j].id == id;
        }
        if exists j | 0 <= j < |models| :: models[j].id == id {
          var j :| 0 <= j < |models| && models[j].id == id;
          if j < |init| {
            assert init[j].id == id;
          }
        }
      }
    }
  }

  /** When no listed id is in the table and the ids are distinct, every model is added, in list order. */
  lemma {:induction false} InsertFresh(table: map<string, ModelRow>, models: seq<NewModel>, now: int)
    requires forall j | 0 <= j < |models| :: models[j].id !in table
    requires forall j, k | 0 <= j < k < |models| :: models[j].id != models[k].id
    ensures InsertAll(table, models, now).added == |models|
    ensures |NewIds(table, models, now)| == |models| &&
      forall j | 0 <= j < |models| :: NewIds(table, models, now)[j] == models[j].id
    decreases |models|
  {
    if models != [] {
      var init, m := models[..|models| - 1], models[|models| - 1];
      InsertFresh(table, init, now);
      InsertAllKeys(table, init, now);
      var before := InsertAll(table, init, now);
      assert forall j | 0 <= j < |init| :: init[j].id != m.id by {
        forall j | 0 <= j < |init| ensures init[j].id != m.id {
          assert init[j] == models[j];
        }
      }
      assert m.id !in before.table;
      var ids := NewIds(table, models, now);
      assert ids == NewIds(table, init, now) + [m.id];
      forall j | 0 <= j < |models| ensures ids[j] == models[j].id {
        if j < |init| {
          assert models[j] == init[j];
        }
      }
    }
  }

  /** Running the same inserts again adds nothing and changes nothing. */
  lemma {:induction false} InsertAgain(table: map<string, ModelRow>, models: seq<NewModel>, now: int, later: int)
    ensures var once := InsertAll(table, models, now);
      InsertAll(once.table, models, later) == Inserted(once.table, 0)
  {
    var once := InsertAll(table, models, now);
    InsertAllCorrect(table, models, now);
    NothingNew(once.table, models, later);
  }

  lemma {:induction false} NothingNew(table: map<string, ModelRow>, models: seq<NewModel>, now: int)
    requires forall j | 0 <= j < |models| :: models[j].id in table
    ensures InsertAll(table, models, now) == Inserted(table, 0)
    decreases |models|
  {
    if models != [] {
      NothingNew(table, models[..|models| - 1], now);
    }
  }

  // ---------------------------------------------------------------------
  // The gateway's connections, as the scripts configure them

  const GatewayUrls := ["http://agentgateway:3000/anthropic/v1", "http://agentgateway:3000/openai/v1",
                        "http://agentgateway:3000/xai/v1", "http://agentgateway:3000/gemini/v1"]
  const GatewayKeys := ["sk-anthropic", "sk-openai", "sk-xai", "sk-gemini"]

  /** A model's display name: its connection's name, " - ", and its id. */
  function ModelDisplayName(connection: string, modelId: string): string {
    connection + " - " + modelId
  }

  /** One model per connection. */
  const GatewayModels := [
    NewModel("claude-haiku-4-5-20251001", ModelDisplayName("Anthropic (Claude)", "claude-haiku-4-5-20251001"), GatewayUrls[0], GatewayKeys[0]),
    NewModel("gpt-5.2-2025-12-11", ModelDisplayName("OpenAI (GPT)", "gpt-5.2-2025-12-11"), GatewayUrls[1], GatewayKeys[1]),
    NewModel("grok-4-latest", ModelDisplayName("xAI (Grok)", "grok-4-latest"), GatewayUrls[2], GatewayKeys[2]),
    NewModel("gemini-3-pro-preview", ModelDisplayName("Gemini", "gemini-3-pro-preview"), GatewayUrls[3], GatewayKeys[3])]

  /**
   * The i-th model is the one `api_configs` lists for connection i and uses
   * that connection's URL and key, so each model reaches the provider it
   * names; no two models share an id.
   */
  lemma GatewayModelsAligned()
    ensures |GatewayModels| == |GatewayUrls| == |GatewayKeys| == |ConfiguredModelIds| == 4
    ensures forall i | 0 <= i < 4 ::
      && GatewayModels[i].id == ConfiguredModelIds[i]
      && GatewayModels[i].baseUrl == GatewayUrls[i]
      && GatewayModels[i].apiKey == GatewayKeys[i]
    ensures forall i, j | 0 <= i < j < 4 :: GatewayModels[i].id != GatewayModels[j].id
  {
    ConfiguredModelIdsDistinct();
  }

  /** On an empty model table a run adds all four models, at positions 0 to 3. */
  lemma FirstRunAddsAll(now: int)
    ensures var r := InsertAll(map[], GatewayModels, now);
      && r.added == 4
      && forall i | 0 <= i < 4 :: GatewayModels[i].id in r.table && PositionOf(r.table[GatewayModels[i].id]) == i
  {
    GatewayModelsAligned();
    InsertFresh(map[], GatewayModels, now);
    InsertAllCorrect(map[], GatewayModels, now);
  }

  // ---------------------------------------------------------------------
  // The database

  /** The document a script starts from: the first config row's, or an empty object when there is none. */
  function ConfigData(db: Database): Value
    reads db
  {
    if db.configRows != [] then db.configRows[0].data else Obj(map[])
  }

  class Database {
    var hasConfigTable: bool
    var configRows: seq<ConfigRow>
    var models: map<string, ModelRow>

    constructor(hasConfigTable: bool, configRows: seq<ConfigRow>, models: map<string, ModelRow>)
      ensures this.hasConfigTable == hasConfigTable && this.configRows == configRows && this.models == models
    {
      this.hasConfigTable := hasConfigTable;
      this.configRows := configRows;
      this.models := models;
    }

    /** `SELECT id, data FROM config` followed by `fetchone()`: the first row, if any. */
    function FirstConfig(): (r: Option<ConfigRow>)
      reads this
      ensures r.Some? <==> configRows != []
    {
      if configRows == [] then None else Some(configRows[0])
    }

    /** Saves the updated document where it was read from, or as row 1. */
    method SaveConfig(read: Option<ConfigRow>, data: Value)
      modifies this
      ensures configRows == SavedConfig(old(configRows), read, data)
      ensures models == old(models) && hasConfigTable == old(hasConfigTable)
    {
      if read.Some? {
        configRows := seq(|configRows|, i requires 0 <= i < |configRows| reads this =>
          if configRows[i].id == read.value.id then ConfigRow(configRows[i].id, data) else configRows[i]);
      } else {
        configRows := configRows + [ConfigRow(1, data)];
      }
    }

    /** The insert loop: a model whose id is already present is skipped, otherwise inserted at position `added`. */
    method InsertModels(list: seq<NewModel>, now: int) returns (added: nat)
      modifies this
      ensures Inserted(models, added) == InsertAll(old(models), list, now)
      ensures configRows == old(configRows) && hasConfigTable == old(hasConfigTable)
    {
      added := 0;
      var i := 0;
      while i < |list|
        invariant 0 <= i <= |list|
        invariant Inserted(models, added) == InsertAll(old(models), list[..i], now)
        invariant configRows == old(configRows) && hasConfigTable == old(hasConfigTable)
      {
        assert list[..i + 1][..i] == list[..i];
        var m := list[i];
        if m.id !in models {
          models := models[m.id := ModelRowOf(m, added, now)];
          added := added + 1;
        }
        i := i + 1;
      }
      assert list[..i] == list;
    }
  }
}
