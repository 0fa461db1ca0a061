/** Registry records as items of the table: what is written for a record, and which items
    are accepted as records when they are read. */
module RegistryItems {
  import opened AttributeCodec
  import opened DeploymentRegistry
  import opened Numerals
  import opened Outcomes

  /** How a digest is written as text. */
  type DigestText = Digest<Body> -> string

  const TEXT_FIELDS: set<string> :=
    {"schema_version", "record_type", "customer_id", "deployment_id", "account_id", "region", "environment", "status", "record_digest"}

  const FIELDS: set<string> := TEXT_FIELDS + {"registry_version", "account_ready", "state_binding"}

  function StageText(s: Stage): string {
    match s
    case Requested => "REQUESTED"
    case Baselining => "BASELINING"
    case Ready => "READY"
    case Active => "ACTIVE"
    case Suspended => "SUSPENDED"
    case Offboarding => "OFFBOARDING"
    case Archived => "ARCHIVED"
  }

  function StageOf(s: string): Option<Stage> {
    if s == "REQUESTED" then Some(Requested)
    else if s == "BASELINING" then Some(Baselining)
    else if s == "READY" then Some(Ready)
    else if s == "ACTIVE" then Some(Active)
    else if s == "SUSPENDED" then Some(Suspended)
    else if s == "OFFBOARDING" then Some(Offboarding)
    else if s == "ARCHIVED" then Some(Archived)
    else None
  }

  lemma StageRoundTrip(s: Stage, t: string)
    ensures StageOf(StageText(s)) == Some(s)
    ensures StageOf(t).Some? ==> StageText(StageOf(t).value) == t
  {
    assert StageText(s)[0] in "RBASO";
    assert "REQUESTED"[2] != "READY"[2] && "ACTIVE"[1] != "ARCHIVED"[1];
  }

  // ---------------------------------------------------------------- what is written

  function AccountReadyItem(a: AccountReady): Value {
    Table(map["schema_version" := Text("2"), "baseline_version" := Text(a.baseline), "contract_digest" := Text(a.contract)])
  }

  function StateBindingItem(s: StateBinding): Value {
    Table(map["state_bucket" := Text(s.bucket), "state_kms_key" := Text(s.key)])
  }

  function OriginItem(domain: string): Value {
    Table(map["schema_version" := Text("1"), "domain_name" := Text(domain)])
  }

  function NameRows(b: Body): map<string, Value> {
    map["record_type" := Text("deployment_target"), "customer_id" := Text(b.customer), "deployment_id" := Text(b.deployment),
        "account_id" := Text(b.account), "region" := Text(b.region), "environment" := Text(b.environment)]
  }

  function FactRows(b: Body, digest: string): map<string, Value> {
    map["schema_version" := Text(if b.schema == 1 then "1" else "2"), "status" := Text(StageText(b.status)),
        "registry_version" := Number(b.version), "account_ready" := AccountReadyItem(b.accountReady),
        "state_binding" := StateBindingItem(b.stateBinding), "record_digest" := Text(digest)]
  }

  /** The item of a record. */
  function ItemOf(r: Record, text: DigestText): Value {
    var rows := NameRows(r.body) + FactRows(r.body, text(r.digest));
    Table(if r.body.origin.Some? then rows["runtime_origin" := OriginItem(r.body.origin.value)] else rows)
  }

  // ---------------------------------------------------------------- what is accepted

  predicate AllTexts(t: map<string, Value>, keys: set<string>) {
    forall k :: k in keys ==> k in t && t[k].Text?
  }

  /** A nested table with these keys and no others, all of them texts, of this schema. */
  predicate TextTable(v: Value, keys: set<string>) {
    v.Table? && v.rows.Keys == keys && AllTexts(v.rows, keys)
  }

  /** The schemas of both versions: the fields are those and no others, with these types. */
  predicate WellFormed(v: Value) {
    && v.Table?
    && var t := v.rows;
    && AllTexts(t, TEXT_FIELDS) && t["schema_version"].text in {"1", "2"}
    && t.Keys == (if t["schema_version"].text == "1" then FIELDS else FIELDS + {"runtime_origin"})
    && t["record_type"].text == "deployment_target" && StageOf(t["status"].text).Some?
    && t["registry_version"].Number? && t["registry_version"].n >= 1
    && TextTable(t["account_ready"], {"schema_version", "baseline_version", "contract_digest"})
    && t["account_ready"].rows["schema_version"].text == "2"
    && TextTable(t["state_binding"], {"state_bucket", "state_kms_key"})
    && ("runtime_origin" in t ==>
          && TextTable(t["runtime_origin"], {"schema_version", "domain_name"})
          && t["runtime_origin"].rows["schema_version"].text == "1")
  }

  function BodyOf(v: Value): Body
    requires WellFormed(v)
  {
    var t := v.rows;
    var ready, state := t["account_ready"].rows, t["state_binding"].rows;
    Body(if t["schema_version"].text == "1" then 1 else 2, t["customer_id"].text, t["deployment_id"].text, t["account_id"].text,
         t["region"].text, t["environment"].text, AccountReady(ready["baseline_version"].text, ready["contract_digest"].text),
         StateBinding(state["state_bucket"].text, state["state_kms_key"].text),
         if "runtime_origin" in t then Some(t["runtime_origin"].rows["domain_name"].text) else None,
         StageOf(t["status"].text).value, t["registry_version"].n)
  }

  /** The record an item is accepted as: well formed, and carrying its own digest. */
  function Accept(v: Value, text: DigestText): Option<Record> {
    if WellFormed(v) && v.rows["record_digest"].text == text(DigestOf(BodyOf(v)))
    then Some(Record(BodyOf(v), DigestOf(BodyOf(v)))) else None
  }

  predicate NameRowsOf(t: map<string, Value>, b: Body) {
    && t.Keys >= {"record_type", "customer_id", "deployment_id", "account_id", "region", "environment"}
    && t["record_type"] == Text("deployment_target")
    && t["customer_id"] == Text(b.customer) && t["deployment_id"] == Text(b.deployment) && t["account_id"] == Text(b.account)
    && t["region"] == Text(b.region) && t["environment"] == Text(b.environment)
  }

  predicate FactRowsOf(t: map<string, Value>, b: Body, digest: string) {
    && t.Keys >= {"schema_version", "status", "registry_version", "account_ready", "state_binding", "record_digest"}
    && t["schema_version"] == Text(if b.schema == 1 then "1" else "2") && t["status"] == Text(StageText(b.status))
    && t["registry_version"] == Number(b.version) && t["account_ready"] == AccountReadyItem(b.accountReady)
    && t["state_binding"] == StateBindingItem(b.stateBinding) && t["record_digest"] == Text(digest)
  }

  /** What stands under each key of an item. */
  predicate RowsOf(t: map<string, Value>, r: Record, text: DigestText) {
    var b := r.body;
    && t.Keys == (if b.schema == 1 then FIELDS else FIELDS + {"runtime_origin"})
    && NameRowsOf(t, b) && FactRowsOf(t, b, text(r.digest))
    && (b.schema != 1 ==> b.origin.Some? && t["runtime_origin"] == OriginItem(b.origin.value))
  }

  lemma PartRows(b: Body, digest: string)
    ensures NameRowsOf(NameRows(b), b) && FactRowsOf(FactRows(b, digest), b, digest)
    ensures NameRows(b).Keys == {"record_type", "customer_id", "deployment_id", "account_id", "region", "environment"}
    ensures FactRows(b, digest).Keys
            == {"schema_version", "status", "registry_version", "account_ready", "state_binding", "record_digest"}
  {
    hide StageText, AccountReadyItem, StateBindingItem, OriginItem;
  }

  lemma ItemRows(r: Record, text: DigestText)
    requires ValidRecord(r)
    ensures ItemOf(r, text).Table? && RowsOf(ItemOf(r, text).rows, r, text)
  {
    hide NameRowsOf, FactRowsOf, NameRows, FactRows, OriginItem;
    PartRows(r.body, text(r.digest));
    JoinedRows(NameRows(r.body), FactRows(r.body, text(r.digest)), r.body, text(r.digest));
    if r.body.schema == 2 {
      OneMoreRow(NameRows(r.body) + FactRows(r.body, text(r.digest)), OriginItem(r.body.origin.value), r.body, text(r.digest));
    }
  }

  lemma JoinedRows(names: map<string, Value>, facts: map<string, Value>, b: Body, digest: string)
    requires NameRowsOf(names, b) && FactRowsOf(facts, b, digest) && names.Keys !! facts.Keys
    ensures NameRowsOf(names + facts, b) && FactRowsOf(names + facts, b, digest)
  {
    hide StageText, AccountReadyItem, StateBindingItem;
  }

  lemma OneMoreRow(t: map<string, Value>, origin: Value, b: Body, digest: string)
    requires NameRowsOf(t, b) && FactRowsOf(t, b, digest) && "runtime_origin" !in t
    ensures NameRowsOf(t["runtime_origin" := origin], b) && FactRowsOf(t["runtime_origin" := origin], b, digest)
  {
    hide StageText, AccountReadyItem, StateBindingItem;
  }

  lemma NestedFit(a: AccountReady, s: StateBinding, domain: string)
    ensures TextTable(AccountReadyItem(a), {"schema_version", "baseline_version", "contract_digest"})
    ensures TextTable(StateBindingItem(s), {"state_bucket", "state_kms_key"})
    ensures TextTable(OriginItem(domain), {"schema_version", "domain_name"})
  {
  }

  /** The item of a valid record is accepted as that record. */
  lemma ItemIsAccepted(r: Record, text: DigestText)
    requires ValidRecord(r)
    ensures Accept(ItemOf(r, text), text) == Some(r)
  {
    hide ItemOf, RowsOf, WellFormed, BodyOf;
    ItemRows(r, text);
    RowsFit(ItemOf(r, text).rows, r, text);
    RowsRead(ItemOf(r, text).rows, r, text);
  }

  lemma RowsFit(t: map<string, Value>, r: Record, text: DigestText)
    requires ValidRecord(r) && RowsOf(t, r, text)
    ensures WellFormed(Table(t)) && t["record_digest"] == Text(text(r.digest))
  {
    hide StageText, StageOf, TextTable, BodyOf, StateBindingItem;
    StageRoundTrip(r.body.status, "");
    NestedFit(r.body.accountReady, r.body.stateBinding, if r.body.origin.Some? then r.body.origin.value else "");
    assert AllTexts(t, TEXT_FIELDS);
  }

  lemma RowsRead(t: map<string, Value>, r: Record, text: DigestText)
    requires ValidRecord(r) && RowsOf(t, r, text) && WellFormed(Table(t))
    ensures BodyOf(Table(t)) == r.body
  {
    hide StageText, StageOf, TextTable;
    StageRoundTrip(r.body.status, "");
  }

  /** Whatever is accepted is the item of a valid record, field by field. */
  lemma AcceptedIsItem(v: Value, text: DigestText)
    requires Accept(v, text).Some?
    ensures ValidRecord(Accept(v, text).value) && ItemOf(Accept(v, text).value, text) == v
  {
    hide ItemOf;
    AcceptedRows(v, text);
    var r := Accept(v, text).value;
    hide WellFormed, RowsOf;
    ItemRows(r, text);
    RowsDetermine(v.rows, ItemOf(r, text).rows, r, text);
  }

  lemma AcceptedRows(v: Value, text: DigestText)
    requires Accept(v, text).Some?
    ensures ValidRecord(Accept(v, text).value) && RowsOf(v.rows, Accept(v, text).value, text)
  {
    StageRoundTrip(Requested, v.rows["status"].text);
    hide StageText, StageOf;
    var b := BodyOf(v);
    assert AccountReadyItem(b.accountReady).rows == v.rows["account_ready"].rows;
    assert StateBindingItem(b.stateBinding).rows == v.rows["state_binding"].rows;
    if "runtime_origin" in v.rows {
      assert OriginItem(b.origin.value).rows == v.rows["runtime_origin"].rows;
    }
  }

  lemma RowsDetermine(t: map<string, Value>, u: map<string, Value>, r: Record, text: DigestText)
    requires RowsOf(t, r, text) && RowsOf(u, r, text)
    ensures t == u
  {
    hide StageText, AccountReadyItem, StateBindingItem, OriginItem;
  }

  // ---------------------------------------------------------------- through the table and back

  /** What a reader gets for the item of a record: nothing if an attribute is refused or
      the item is not a record. */
  function Received(r: Record, text: DigestText): Option<Record> {
    var written := Encode(ItemOf(r, text));
    if written == None then None
    else
      var read := Decode(written.value);
      if read == None then None else Accept(read.value, text)
  }

  /** Each row is a text, the version or one of the nested tables. */
  lemma RowKinds(t: map<string, Value>, r: Record, text: DigestText)
    requires RowsOf(t, r, text)
    ensures "registry_version" in t && t["registry_version"] == Number(r.body.version)
    ensures forall k :: k in t ==>
      || t[k].Text? || t[k] == Number(r.body.version)
      || t[k] == AccountReadyItem(r.body.accountReady) || t[k] == StateBindingItem(r.body.stateBinding)
      || (r.body.origin.Some? && t[k] == OriginItem(r.body.origin.value))
  {
    hide StageText, AccountReadyItem, StateBindingItem, OriginItem;
    forall k | k in t ensures k in FIELDS + {"runtime_origin"} {
    }
  }

  lemma ItemStorable(r: Record, text: DigestText)
    requires ValidRecord(r)
    ensures Encodable(ItemOf(r, text)) && (Storable(ItemOf(r, text)) <==> r.body.version < Power(38))
  {
    hide Power, StageText, ItemOf, AccountReadyItem, StateBindingItem, OriginItem, RowsOf;
    ItemRows(r, text);
    RowKinds(ItemOf(r, text).rows, r, text);
    NestedStorable(r.body.accountReady, r.body.stateBinding, if r.body.origin.Some? then r.body.origin.value else "");
    assert Storable(Number(r.body.version)) <==> r.body.version < Power(38);
  }

  lemma NestedStorable(a: AccountReady, s: StateBinding, domain: string)
    ensures Storable(AccountReadyItem(a)) && Storable(StateBindingItem(s)) && Storable(OriginItem(domain))
    ensures Encodable(AccountReadyItem(a)) && Encodable(StateBindingItem(s)) && Encodable(OriginItem(domain))
  {
    hide Power;
  }

  /** Every valid record can be written; it is read back as itself exactly if its version
      is below 10 to the 38, and is refused otherwise. */
  lemma RecordSurvives(r: Record, text: DigestText)
    requires ValidRecord(r)
    ensures Encode(ItemOf(r, text)).Some?
    ensures Received(r, text) == if r.body.version < Power(38) then Some(r) else None
  {
    ItemStorable(r, text);
    ReadBack(ItemOf(r, text));
    ItemIsAccepted(r, text);
    hide ItemOf, Accept, Encode, Decode, Storable, Encodable, Power;
  }

  /** So every record of a history of fewer than 10 to the 38 writes is read back. */
  lemma HistorySurvives(h: seq<Record>, i: nat, text: DigestText)
    requires History(h) && i < |h| < Power(38)
    ensures Received(h[i], text) == Some(h[i])
  {
    hide Power, Received;
    VersionCountsWrites(h, i);
    RecordSurvives(h[i], text);
  }
}
