/** The settings record of the settings page: its defaults, the migration
    `upgradeSettings` that merges a possibly partial or garbage document
    into them, the per-field binders, reset and import.

    A settings record is a JSON object kept as a map from group name to
    group. The source types it as `Settings`, but the values read back from
    storage or from an import are whatever JSON.parse produced. So every
    field here is a Json value, and the model does not assume the declared
    field types. */
module Settings {
  import opened Wrappers
  import opened Json
  import opened Decimal

  type Group = map<string, Json>
  type Settings = map<string, Json>

  // ----- DEFAULTS (settings/page.tsx:117-165) -----

  const DefaultGeneral: Group :=
    map["farmName" := JStr("Yam.io — Broiler"), "ageDays" := JNum(0.0), "timezone" := JStr("Asia/Jakarta")]

  const DefaultSampling: Group :=
    map["intervalSec" := JNum(1.0), "bufferSamples" := JNum(120.0)]

  const DefaultTargets: Group :=
    map["tempSet" := JNum(27.0), "hys" := JNum(0.7), "luxSet" := JNum(15.0)]

  const DefaultControl: Group :=
    map["usePwm" := JBool(true), "invertLogic" := JBool(false),
        "fanPwmFreq" := JNum(25000.0), "fanStartBoostDuty" := JNum(255.0),
        "fanStartBoostMs" := JNum(200.0), "fanMinDuty" := JNum(50.0),
        "fanRampPerSec" := JNum(10.0), "ledPwmFreq" := JNum(1800.0),
        "ledMinDuty" := JNum(10.0), "ledGamma" := JNum(2.2)]

  const DefaultStrategy: Group :=
    map["tempMode" := JStr("bangbang"), "kpTemp" := JNum(20.0), "kpLux" := JNum(5.0),
        "fanDutyMin" := JNum(50.0), "fanDutyMax" := JNum(255.0),
        "ledDutyMin" := JNum(10.0), "ledDutyMax" := JNum(255.0)]

  const DefaultSensor: Group :=
    map["tempOffset" := JNum(0.0), "luxOffset" := JNum(0.0),
        "smoothWindowTemp" := JNum(3.0), "smoothWindowLux" := JNum(6.0)]

  const DefaultAlerts: Group :=
    map["enabled" := JBool(true), "tempHigh" := JNum(33.0), "tempLow" := JNum(20.0),
        "luxHigh" := JNum(30.0), "luxLow" := JNum(5.0), "holdSec" := JNum(120.0),
        "recoverySec" := JNum(60.0), "reNotifyMin" := JNum(30.0),
        "graceNormalSec" := JNum(5.0), "webhookUrl" := JStr("")]

  const DefaultNight: Group :=
    map["enabled" := JBool(false), "start" := JStr("21:00"), "end" := JStr("05:00"),
        "luxTarget" := JNum(8.0), "fanMax" := JNum(160.0)]

  const DefaultQuiet: Group :=
    map["enabled" := JBool(false), "fanMax" := JNum(160.0)]

  const DefaultMains: Group :=
    map["sense" := JStr("none")]

  const DefaultMqtt: Group :=
    map["host" := JStr(""), "port" := JNum(1883.0), "topic" := JStr("broiler/ingest"),
        "username" := JStr(""), "password" := JStr("")]

  const DefaultBackend: Group :=
    map["mode" := JStr("http"), "httpUrl" := JStr("/api/ingest"), "deviceId" := JStr("esp32-001"),
        "token" := JStr(""), "mqtt" := JObj(DefaultMqtt)]

  /** The eleven top-level groups of a settings record. */
  const GroupNames: set<string> :=
    {"general", "sampling", "targets", "control", "strategy",
     "sensor", "alerts", "night", "quiet", "mains", "backend"}

  /** The ten groups that are merged one level deep; "backend" is the
      eleventh group and has the nested "mqtt" record. */
  predicate IsFlatGroup(g: string)
  {
    g in GroupNames && g != "backend"
  }

  /** Default fields of a one-level group. */
  function DefaultFields(g: string): (d: Group)
    requires IsFlatGroup(g)
  {
    match g
    case "general" => DefaultGeneral
    case "sampling" => DefaultSampling
    case "targets" => DefaultTargets
    case "control" => DefaultControl
    case "strategy" => DefaultStrategy
    case "sensor" => DefaultSensor
    case "alerts" => DefaultAlerts
    case "night" => DefaultNight
    case "quiet" => DefaultQuiet
    case _ => DefaultMains
  }

  /** Default value of any group. */
  function DefaultGroup(g: string): Json
    requires g in GroupNames
  {
    if g == "backend" then JObj(DefaultBackend) else JObj(DefaultFields(g))
  }

  /** DEFAULTS: every group holds its default fields. */
  const Defaults: Settings :=
    map g | g in GroupNames :: DefaultGroup(g)

  // ----- upgradeSettings (settings/page.tsx:92-113) -----

  /** The own enumerable properties of an array: its index numerals. */
  function IndexKeys(n: nat): set<string>
  {
    set i | 0 <= i < n :: NatToString(i)
  }

  /** The helper `s` followed by object spread: `{ ...s(o) }`. A value that
      is truthy and of type "object" is spread; JavaScript arrays are objects,
      so an array spreads to its index numerals. Undefined, null, booleans,
      numbers and strings give the empty object. */
  function ObjectView(o: Option<Json>): (m: Group)
    ensures o.Some? && o.value.JObj? ==> m == o.value.fields
    ensures o.Some? && o.value.JArr? ==>
              m.Keys == IndexKeys(|o.value.items|) &&
              forall i :: 0 <= i < |o.value.items| ==> m[NatToString(i)] == o.value.items[i]
    ensures !(o.Some? && (o.value.JObj? || o.value.JArr?)) ==> m == map[]
  {
    match o
    case Some(JObj(fields)) => fields
    case Some(JArr(items)) =>
      NatToStringInjective();
      map i | 0 <= i < |items| :: NatToString(i) := items[i]
    case _ => map[]
  }

  /** `{ ...d, ...s(o) }`: the keys of both, and for each key the spread
      value when o has it, else the default. */
  function Merge(d: Group, o: Option<Json>): (r: Json)
    ensures r.JObj? && r.fields.Keys == d.Keys + ObjectView(o).Keys
    ensures forall k :: k in r.fields ==>
              r.fields[k] == if k in ObjectView(o) then ObjectView(o)[k] else d[k]
  {
    JObj(d + ObjectView(o))
  }

  /** The nested merge of the backend group: the raw backend is spread over
      the defaults, then "mqtt" is merged on its own. */
  function MergeBackend(b: Option<Json>): (r: Json)
    ensures r.JObj? && r.fields.Keys == DefaultBackend.Keys + ObjectView(b).Keys
    ensures r.fields["mqtt"].JObj?
  {
    assert "mqtt" in DefaultBackend;
    JObj((DefaultBackend + ObjectView(b))["mqtt" := Merge(DefaultMqtt, Member(b, "mqtt"))])
  }

  /** How one group of the result is made from the raw group `raw?.g`. */
  function UpgradeGroup(g: string, v: Option<Json>): (r: Json)
    requires g in GroupNames
    ensures r.JObj?
    ensures g != "backend" ==> r.fields.Keys == DefaultFields(g).Keys + ObjectView(v).Keys
    ensures g == "backend" ==> r.fields.Keys == DefaultBackend.Keys + ObjectView(v).Keys
  {
    if g == "backend" then MergeBackend(v) else Merge(DefaultFields(g), v)
  }

  /** `upgradeSettings`: each of the eleven groups is merged on its own; the
      ten one-level groups by `Merge`, backend by `MergeBackend`. Nothing
      else of the raw document is read. */
  function Upgrade(raw: Json): (r: Settings)
    ensures r.Keys == GroupNames
  {
    map g | g in GroupNames :: UpgradeGroup(g, Member(Some(raw), g))
  }

  /** The raw group `raw?.g`, as `s` sees it. */
  function RawGroup(raw: Json, g: string): Group
  {
    ObjectView(Member(Some(raw), g))
  }

  // ----- facts about map override, kept generic so that the concrete
  //       default maps are never unfolded -----

  lemma OverrideEmpty(d: Group)
    ensures d + map[] == d
  {
  }

  lemma OverrideAbsorbs(d: Group, f: Group)
    requires d.Keys <= f.Keys
    ensures d + f == f
  {
  }

  lemma UpdateSame(m: Group, k: string)
    requires k in m
    ensures m[k := m[k]] == m
  {
  }

  lemma SameEntries(a: map<string, Json>, b: map<string, Json>)
    requires a.Keys == b.Keys
    requires forall k :: k in a ==> a[k] == b[k]
    ensures a == b
  {
  }

  // ----- what upgradeSettings promises -----

  /** Every one-level group of the result is its defaults overridden by the
      raw group's own fields. */
  lemma UpgradeFlatGroup(raw: Json, g: string)
    requires IsFlatGroup(g)
    ensures Upgrade(raw)[g] == JObj(DefaultFields(g) + RawGroup(raw, g))
  {
  }

  /** A field present in the raw group wins; an absent default field keeps
      its default; extra raw fields inside a group are kept; a raw group
      that is missing or not an object gives exactly the default group. */
  lemma UpgradeFieldOverride(raw: Json, g: string, k: string)
    requires IsFlatGroup(g)
    ensures Upgrade(raw)[g].JObj?
    ensures Upgrade(raw)[g].fields.Keys == DefaultFields(g).Keys + RawGroup(raw, g).Keys
    ensures k in RawGroup(raw, g) ==> Upgrade(raw)[g].fields[k] == RawGroup(raw, g)[k]
    ensures k !in RawGroup(raw, g) && k in DefaultFields(g) ==>
              Upgrade(raw)[g].fields[k] == DefaultFields(g)[k]
    ensures RawGroup(raw, g) == map[] ==> Upgrade(raw)[g] == Defaults[g]
  {
    UpgradeFlatGroup(raw, g);
    OverrideEmpty(DefaultFields(g));
  }

  /** The merged backend group, described field by field. */
  lemma MergeBackendFields(b: Option<Json>, k: string)
    ensures MergeBackend(b).JObj?
    ensures var m := MergeBackend(b).fields;
            var rb := ObjectView(b);
            && m.Keys == DefaultBackend.Keys + rb.Keys
            && (k != "mqtt" && k in rb ==> m[k] == rb[k])
            && (k != "mqtt" && k !in rb && k in DefaultBackend ==> m[k] == DefaultBackend[k])
            && m["mqtt"] == JObj(DefaultMqtt + ObjectView(Member(b, "mqtt")))
    ensures Member(b, "mqtt") == None ==> MergeBackend(b).fields["mqtt"] == JObj(DefaultMqtt)
    ensures ObjectView(b) == map[] ==> MergeBackend(b) == JObj(DefaultBackend)
  {
    assert "mqtt" in DefaultBackend && DefaultBackend["mqtt"] == JObj(DefaultMqtt);
    OverrideEmpty(DefaultMqtt);
    if ObjectView(b) == map[] {
      assert Member(b, "mqtt") == None;
      OverrideEmpty(DefaultBackend);
      UpdateSame(DefaultBackend, "mqtt");
    }
  }

  /** Backend: fields other than "mqtt" come from the raw backend over the
      defaults; "mqtt" is the default mqtt record overridden by the raw
      `backend.mqtt` alone. A raw backend without an "mqtt" object keeps the
      default mqtt record even when its other fields are taken. */
  lemma UpgradeBackend(raw: Json, k: string)
    ensures Upgrade(raw)["backend"].JObj?
    ensures var b := Upgrade(raw)["backend"].fields;
            var rb := RawGroup(raw, "backend");
            && b.Keys == DefaultBackend.Keys + rb.Keys
            && (k != "mqtt" && k in rb ==> b[k] == rb[k])
            && (k != "mqtt" && k !in rb && k in DefaultBackend ==> b[k] == DefaultBackend[k])
            && b["mqtt"] == JObj(DefaultMqtt + ObjectView(Member(Member(Some(raw), "backend"), "mqtt")))
    ensures Member(Member(Some(raw), "backend"), "mqtt") == None ==>
              Upgrade(raw)["backend"].fields["mqtt"] == JObj(DefaultMqtt)
    ensures RawGroup(raw, "backend") == map[] ==> Upgrade(raw)["backend"] == Defaults["backend"]
  {
    assert Upgrade(raw)["backend"] == MergeBackend(Member(Some(raw), "backend"));
    MergeBackendFields(Member(Some(raw), "backend"), k);
  }

  /** The result depends on the raw document only through its eleven
      groups. */
  lemma UpgradeReadsOnlyGroups(a: Json, b: Json)
    requires forall g :: g in GroupNames ==> Member(Some(a), g) == Member(Some(b), g)
    ensures Upgrade(a) == Upgrade(b)
  {
  }

  /** Top-level keys of the document other than the eleven groups never
      reach the result, whatever they hold. */
  lemma UpgradeDropsUnknownGroups(raw: Json, k: string, v: Json)
    requires raw.JObj? && k !in GroupNames
    ensures k !in Upgrade(raw)
    ensures Upgrade(JObj(raw.fields[k := v])) == Upgrade(raw)
  {
    var raw' := JObj(raw.fields[k := v]);
    forall g | g in GroupNames ensures Member(Some(raw'), g) == Member(Some(raw), g) {
      assert g != k;
    }
    UpgradeReadsOnlyGroups(raw', raw);
  }

  // ----- the shape every stored settings value has -----

  /** The shape `Upgrade` gives group g: an object holding at least the
      default fields of g; for backend, also an "mqtt" object holding at
      least the default mqtt fields. */
  ghost predicate Shaped(g: string, v: Json)
    requires g in GroupNames
  {
    if g == "backend" then
      && v.JObj?
      && DefaultBackend.Keys <= v.fields.Keys
      && v.fields["mqtt"].JObj?
      && DefaultMqtt.Keys <= v.fields["mqtt"].fields.Keys
    else
      v.JObj? && DefaultFields(g).Keys <= v.fields.Keys
  }

  /** What `Upgrade` always produces: the eleven groups, each of its shape. */
  ghost predicate Normalized(s: Settings)
  {
    s.Keys == GroupNames && forall g :: g in GroupNames ==> Shaped(g, s[g])
  }

  lemma UpgradeGroupShaped(g: string, v: Option<Json>)
    requires g in GroupNames
    ensures Shaped(g, UpgradeGroup(g, v))
  {
    if g == "backend" {
      MergeBackendFields(v, "mqtt");
    }
  }

  /** A group already of its shape is merged into itself. */
  lemma UpgradeGroupFixed(g: string, v: Json)
    requires g in GroupNames && Shaped(g, v)
    ensures UpgradeGroup(g, Some(v)) == v
  {
    if g == "backend" {
      var b := v.fields;
      OverrideAbsorbs(DefaultMqtt, b["mqtt"].fields);
      OverrideAbsorbs(DefaultBackend, b);
      UpdateSame(b, "mqtt");
    } else {
      OverrideAbsorbs(DefaultFields(g), v.fields);
    }
  }

  lemma UpgradeIsNormalized(raw: Json)
    ensures Normalized(Upgrade(raw))
  {
    forall g | g in GroupNames ensures Shaped(g, Upgrade(raw)[g]) {
      UpgradeGroupShaped(g, Member(Some(raw), g));
    }
  }

  /** A normalized record is left as it is by `Upgrade`, and only a
      normalized record is. */
  lemma UpgradeFixedPoint(s: Settings)
    ensures Normalized(s) <==> Upgrade(JObj(s)) == s
  {
    if Normalized(s) {
      var u := Upgrade(JObj(s));
      forall g | g in GroupNames ensures u[g] == s[g] {
        UpgradeGroupFixed(g, s[g]);
      }
    }
    if Upgrade(JObj(s)) == s {
      UpgradeIsNormalized(JObj(s));
    }
  }

  /** Re-upgrading the saved upgraded value changes nothing. */
  lemma UpgradeIdempotent(raw: Json)
    ensures Upgrade(JObj(Upgrade(raw))) == Upgrade(raw)
  {
    UpgradeIsNormalized(raw);
    UpgradeFixedPoint(Upgrade(raw));
  }

  /** A missing group upgrades to its default. */
  lemma UpgradeGroupMissing(g: string)
    requires g in GroupNames
    ensures UpgradeGroup(g, None) == DefaultGroup(g)
  {
    if g == "backend" {
      MergeBackendFields(None, "mqtt");
    } else {
      OverrideEmpty(DefaultFields(g));
    }
  }

  /** The defaults are what an empty document upgrades to. */
  lemma UpgradeEmpty()
    ensures Upgrade(JObj(map[])) == Defaults
  {
    var u := Upgrade(JObj(map[]));
    assert Defaults.Keys == GroupNames;
    forall g | g in GroupNames ensures u[g] == Defaults[g] {
      assert Member(Some(JObj(map[])), g) == None;
      assert u[g] == UpgradeGroup(g, None);
      UpgradeGroupMissing(g);
    }
    SameEntries(u, Defaults);
  }

  /** The defaults are normalized and migrate to themselves. */
  lemma UpgradeDefaults()
    ensures Normalized(Defaults)
    ensures Upgrade(JObj(Defaults)) == Defaults
  {
    UpgradeEmpty();
    UpgradeIsNormalized(JObj(map[]));
    UpgradeFixedPoint(Defaults);
  }

  // ----- editing the record (settings/page.tsx:202-234, 549-599) -----

  /** `setS({ ...s, [g]: { ...s[g], [k]: v } })`: the shape shared by
      `onNum`, `onTxt`, `onBool`, `setTempMode`, the backend mode buttons and
      the strategy inputs. Field k of group g becomes v; every other field of
      g and every other group is unchanged. */
  function SetField(s: Settings, g: string, k: string, v: Json): (r: Settings)
    requires g in s && s[g].JObj?
    ensures r.Keys == s.Keys
    ensures r[g].JObj? && r[g].fields.Keys == s[g].fields.Keys + {k}
    ensures r[g].fields[k] == v
    ensures forall f :: f in s[g].fields && f != k ==> r[g].fields[f] == s[g].fields[f]
    ensures forall h :: h in s && h != g ==> r[h] == s[h]
  {
    s[g := JObj(s[g].fields[k := v])]
  }

  /** `onNum(g, k)` with the number already converted from the input text. */
  function OnNum(s: Settings, g: string, k: string, x: real): (r: Settings)
    requires g in s && s[g].JObj?
    ensures r.Keys == s.Keys && r[g] == JObj(s[g].fields[k := JNum(x)])
    ensures forall h :: h in s && h != g ==> r[h] == s[h]
  {
    SetField(s, g, k, JNum(x))
  }

  /** `onTxt(g, k)`. */
  function OnTxt(s: Settings, g: string, k: string, t: string): (r: Settings)
    requires g in s && s[g].JObj?
    ensures r.Keys == s.Keys && r[g] == JObj(s[g].fields[k := JStr(t)])
    ensures forall h :: h in s && h != g ==> r[h] == s[h]
  {
    SetField(s, g, k, JStr(t))
  }

  /** `onBool(g, k)`. */
  function OnBool(s: Settings, g: string, k: string, c: bool): (r: Settings)
    requires g in s && s[g].JObj?
    ensures r.Keys == s.Keys && r[g] == JObj(s[g].fields[k := JBool(c)])
    ensures forall h :: h in s && h != g ==> r[h] == s[h]
  {
    SetField(s, g, k, JBool(c))
  }

  datatype TempMode = BangBang | Proportional {
    function Name(): string
    {
      match this
      case BangBang => "bangbang"
      case Proportional => "proportional"
    }
  }

  /** The strategy buttons: `tempMode` becomes the chosen mode; the other
      strategy fields and the other groups are unchanged. */
  function SetTempMode(s: Settings, m: TempMode): (r: Settings)
    requires "strategy" in s && s["strategy"].JObj?
    ensures r.Keys == s.Keys && r["strategy"].JObj?
    ensures r["strategy"].fields == s["strategy"].fields["tempMode" := JStr(m.Name())]
    ensures forall h :: h in s && h != "strategy" ==> r[h] == s[h]
  {
    SetField(s, "strategy", "tempMode", JStr(m.Name()))
  }

  datatype TransportMode = Http | Mqtt {
    function Name(): string
    {
      match this
      case Http => "http"
      case Mqtt => "mqtt"
    }
  }

  /** The HTTP / MQTT buttons. */
  function SetBackendMode(s: Settings, m: TransportMode): (r: Settings)
    requires "backend" in s && s["backend"].JObj?
    ensures r.Keys == s.Keys && r["backend"].JObj?
    ensures r["backend"].fields == s["backend"].fields["mode" := JStr(m.Name())]
    ensures "mqtt" in s["backend"].fields ==> r["backend"].fields["mqtt"] == s["backend"].fields["mqtt"]
    ensures forall h :: h in s && h != "backend" ==> r[h] == s[h]
  {
    SetField(s, "backend", "mode", JStr(m.Name()))
  }

  /** The inputs of the MQTT panel: field k of backend.mqtt becomes v,
      nothing else changes. */
  function SetMqttField(s: Settings, k: string, v: Json): (r: Settings)
    requires "backend" in s && s["backend"].JObj?
    requires "mqtt" in s["backend"].fields && s["backend"].fields["mqtt"].JObj?
    ensures r.Keys == s.Keys
    ensures forall h :: h in s && h != "backend" ==> r[h] == s[h]
    ensures r["backend"].JObj? && r["backend"].fields.Keys == s["backend"].fields.Keys
    ensures forall f :: f in s["backend"].fields && f != "mqtt" ==>
              r["backend"].fields[f] == s["backend"].fields[f]
    ensures r["backend"].fields["mqtt"] == JObj(s["backend"].fields["mqtt"].fields[k := v])
  {
    var b := s["backend"].fields;
    s["backend" := JObj(b["mqtt" := JObj(b["mqtt"].fields[k := v])])]
  }

  datatype MainsSense = NoSense | Opto {
    function Name(): string
    {
      match this
      case NoSense => "none"
      case Opto => "opto"
    }
  }

  /** The mains buttons write a whole new group `{ sense: v }`, so
      unlike the binders they drop any other field mains held. */
  function SetMainsSense(s: Settings, m: MainsSense): (r: Settings)
    ensures r.Keys == s.Keys + {"mains"}
    ensures r["mains"] == JObj(map["sense" := JStr(m.Name())])
    ensures forall h :: h in s && h != "mains" ==> r[h] == s[h]
  {
    s["mains" := JObj(map["sense" := JStr(m.Name())])]
  }

  /** `resetDefaults`: the record becomes DEFAULTS, which is stable under a
      reload. */
  function ResetDefaults(s: Settings): (r: Settings)
    ensures r == Defaults
    ensures Normalized(r) && Upgrade(JObj(r)) == r
  {
    UpgradeDefaults();
    Defaults
  }

  /** `importJSON`: `parsed` is what JSON.parse returned for the text box, or
      None when it threw. On success the record is the upgraded document;
      on failure it is unchanged. */
  function ImportJson(s: Settings, parsed: Option<Json>): (r: Settings)
    ensures parsed.Some? ==> r == Upgrade(parsed.value) && Normalized(r)
    ensures parsed.None? ==> r == s
  {
    match parsed
    case Some(obj) =>
      UpgradeIsNormalized(obj);
      Upgrade(obj)
    case None => s
  }

  /** The first value of the settings state in `useLocal("settings",
      DEFAULTS)`: `stored` is what storage held under "settings" and
      `parsed` what JSON.parse made of it (None when it threw). A missing or
      empty entry, or one that does not parse, gives DEFAULTS; anything that
      parses is upgraded. */
  function Load(stored: Option<string>, parsed: Option<Json>): (r: Settings)
    ensures (stored.None? || stored.value == "" || parsed.None?) ==> r == Defaults
    ensures stored.Some? && stored.value != "" && parsed.Some? ==> r == Upgrade(parsed.value)
    ensures Normalized(r) && Upgrade(JObj(r)) == r
  {
    UpgradeDefaults();
    if stored.None? || stored.value == "" || parsed.None? then Defaults
    else
      UpgradeIdempotent(parsed.value);
      UpgradeIsNormalized(parsed.value);
      Upgrade(parsed.value)
  }

  // ----- every record the page can hold stays a fixed point of Upgrade -----

  /** A user action on the settings page. */
  datatype Edit =
    | Num(g: string, k: string, x: real)
    | Txt(g: string, k: string, t: string)
    | Flag(g: string, k: string, c: bool)
    | ChooseTempMode(m: TempMode)
    | ChooseBackendMode(tm: TransportMode)
    | ChooseMains(ms: MainsSense)
    | MqttField(mk: string, v: Json)
    | Reset
    | Import(parsed: Option<Json>)

  /** The binders are only ever attached to a field of a one-level group
      or to a non-"mqtt" field of backend. */
  predicate EditAllowed(e: Edit)
  {
    match e
    case Num(g, k, _) => IsFlatGroup(g) || (g == "backend" && k != "mqtt")
    case Txt(g, k, _) => IsFlatGroup(g) || (g == "backend" && k != "mqtt")
    case Flag(g, k, _) => IsFlatGroup(g) || (g == "backend" && k != "mqtt")
    case _ => true
  }

  lemma SetFieldNormalized(s: Settings, g: string, k: string, v: Json)
    requires Normalized(s)
    requires IsFlatGroup(g) || (g == "backend" && k != "mqtt")
    ensures g in s && s[g].JObj? && Normalized(SetField(s, g, k, v))
  {
    var r := SetField(s, g, k, v);
    assert Shaped(g, s[g]);
    forall h | h in GroupNames ensures Shaped(h, r[h]) {
      if h != g {
        assert r[h] == s[h];
      }
    }
  }

  lemma SetMainsSenseNormalized(s: Settings, m: MainsSense)
    requires Normalized(s)
    ensures Normalized(SetMainsSense(s, m))
  {
    var r := SetMainsSense(s, m);
    forall h | h in GroupNames ensures Shaped(h, r[h]) {
      if h != "mains" {
        assert r[h] == s[h];
      }
    }
  }

  lemma SetMqttFieldNormalized(s: Settings, k: string, v: Json)
    requires Normalized(s)
    ensures Normalized(SetMqttField(s, k, v))
  {
    var r := SetMqttField(s, k, v);
    assert Shaped("backend", s["backend"]);
    forall h | h in GroupNames ensures Shaped(h, r[h]) {
      if h != "backend" {
        assert r[h] == s[h];
      }
    }
  }

  /** One action applied to a normalized record gives a normalized record. */
  function Apply(s: Settings, e: Edit): (r: Settings)
    requires Normalized(s) && EditAllowed(e)
    ensures Normalized(r)
  {
    match e
    case Num(g, k, x) => SetFieldNormalized(s, g, k, JNum(x)); OnNum(s, g, k, x)
    case Txt(g, k, t) => SetFieldNormalized(s, g, k, JStr(t)); OnTxt(s, g, k, t)
    case Flag(g, k, c) => SetFieldNormalized(s, g, k, JBool(c)); OnBool(s, g, k, c)
    case ChooseTempMode(m) =>
      SetFieldNormalized(s, "strategy", "tempMode", JStr(m.Name())); SetTempMode(s, m)
    case ChooseBackendMode(tm) =>
      SetFieldNormalized(s, "backend", "mode", JStr(tm.Name())); SetBackendMode(s, tm)
    case ChooseMains(ms) => SetMainsSenseNormalized(s, ms); SetMainsSense(s, ms)
    case MqttField(k, v) => SetMqttFieldNormalized(s, k, v); SetMqttField(s, k, v)
    case Reset => ResetDefaults(s)
    case Import(parsed) => ImportJson(s, parsed)
  }

  /** The record after a session of actions, starting from what `useLocal`
      loaded (DEFAULTS or an upgraded stored value). Every state it passes
      through is one that a reload maps to itself. */
  function ApplyAll(s: Settings, es: seq<Edit>): (r: Settings)
    requires Normalized(s)
    requires forall i :: 0 <= i < |es| ==> EditAllowed(es[i])
    ensures Normalized(r)
    ensures Upgrade(JObj(r)) == r
    decreases |es|
  {
    if |es| == 0 then
      UpgradeFixedPoint(s);
      s
    else
      ApplyAll(Apply(s, es[0]), es[1..])
  }
}
