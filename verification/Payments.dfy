/** The register of payment licences: snapshots arrive late, twice or out of order, and the row of each
    organisation and product must still end up with the newest one. */
module Payments {
  import opened Support

  /** A jsonb value. What `->>` prints of a number, an array or an object is carried along. */
  datatype Json =
    | JNull
    | JBool(truth: bool)
    | JText(text: string)
    | JNumber(printed: string)
    | JArray(printed: string)
    | JObject(members: map<string, Json>, printed: string)

  /** `json -> name`: SQL NULL unless the value is an object with that member. */
  function Member(j: Option<Json>, name: string): Option<Json> {
    if j.Some? && j.value.JObject? && name in j.value.members then Some(j.value.members[name]) else None
  }

  /** `json ->> name`: a JSON null reads as SQL NULL. */
  function MemberText(j: Option<Json>, name: string): Option<string> {
    var m := Member(j, name);
    if m.None? then None
    else
      match m.value
      case JNull => None
      case JBool(truth) => Some(if truth then "true" else "false")
      case JText(text) => Some(text)
      case JNumber(printed) => Some(printed)
      case JArray(printed) => Some(printed)
      case JObject(_, printed) => Some(printed)
  }

  /** The arguments of one delivery, each of which may be NULL, and the clock when it is applied. */
  datatype Delivery = Delivery(
    org: Option<Org>, product: Option<string>, revision: Option<int>, confirmed: Option<Time>,
    license: Option<Json>, subscription: Option<Json>, at: Time)

  datatype Refusal = InvalidSnapshot | NotAUuid | InvalidScope | UnmatchedLicense

  datatype Key = Key(org: Org, product: string)

  datatype Row = Row(revision: int, license: Json, subscription: Option<Json>, version: int, confirmedAt: Time, receivedAt: Time)

  type Register = map<Key, Row>

  const CLOCK_SKEW: Time := 5 * MINUTE

  /** The first check of the function; every comparison is IS DISTINCT FROM or guarded by IS NULL. */
  predicate WellFormed(d: Delivery) {
    && d.org.Some? && d.product.Some? && |d.product.value| >= 1
    && d.revision.Some? && d.revision.value > 0
    && d.confirmed.Some? && d.confirmed.value <= d.at + CLOCK_SKEW
    && d.license.Some? && d.license.value.JObject?
    && MemberText(d.license, "productCode") == d.product
    && Member(d.license, "active").Some? && Member(d.license, "active").value.JBool?
  }

  /** SQL NULL and JSON null both mean that there is no subscription. */
  function Subscribed(d: Delivery): Option<Json> {
    if d.subscription == Some(JNull) then None else d.subscription
  }

  predicate Active(license: Json) {
    MemberText(Some(license), "active") == Some("true")
  }

  /** The subscription a licence is for: both members present and the same text on both sides. */
  predicate Matches(license: Json, subscription: Option<Json>) {
    && MemberText(subscription, "id").Some? && MemberText(subscription, "id") == MemberText(Some(license), "subscriptionId")
    && MemberText(subscription, "planCode").Some? && MemberText(subscription, "planCode") == MemberText(Some(license), "planCode")
  }

  /** The uuid a text denotes; a text outside the map makes the cast raise. */
  type Uuids = map<string, Org>

  function ScopeRefusal(d: Delivery, uuids: Uuids): Option<Refusal> {
    var s := Subscribed(d);
    if s.None? then None
    else if !s.value.JObject? then Some(InvalidScope)
    else
      var org := MemberText(s, "organizationId");
      if org.Some? && org.value !in uuids then Some(NotAUuid)
      else if (if org.None? then None else Some(uuids[org.value])) != d.org then Some(InvalidScope)
      else if MemberText(s, "productCode") != d.product then Some(InvalidScope)
      else None
  }

  /** The exception raised for a delivery, if any. */
  function Refused(d: Delivery, uuids: Uuids): Option<Refusal> {
    if !WellFormed(d) then Some(InvalidSnapshot)
    else if ScopeRefusal(d, uuids).Some? then ScopeRefusal(d, uuids)
    else if Active(d.license.value) && !Matches(d.license.value, Subscribed(d)) then Some(UnmatchedLicense)
    else None
  }

  predicate Accepts(d: Delivery, uuids: Uuids, k: Key) {
    Refused(d, uuids).None? && Key(d.org.value, d.product.value) == k
  }

  function RowOf(d: Delivery): Row
    requires WellFormed(d)
  {
    Row(d.revision.value, d.license.value, Subscribed(d), 1, d.confirmed.value, d.at)
  }

  /** What one delivery leaves in the register. */
  function Applied(rows: Register, d: Delivery, uuids: Uuids): Register {
    if Refused(d, uuids).Some? then rows
    else
      var k := Key(d.org.value, d.product.value);
      if k in rows && rows[k].revision >= d.revision.value then rows else rows[k := RowOf(d)]
  }

  // ---- a delivery on its values --------------------------------------------------------------------

  /** `value` is an object whose member of that name prints as `text`; a text prints as itself. */
  predicate Reads(value: Option<Json>, name: string, text: string) {
    value.Some? && value.value.JObject? && name in value.value.members && Prints(value.value.members[name], text)
  }

  predicate Prints(value: Json, text: string) {
    || value == JText(text)
    || (value == JBool(true) && text == "true") || (value == JBool(false) && text == "false")
    || ((value.JNumber? || value.JArray? || value.JObject?) && value.printed == text)
  }

  lemma TextIsRead(value: Option<Json>, name: string)
    ensures forall text :: MemberText(value, name) == Some(text) <==> Reads(value, name, text)
    ensures forall one, two | Reads(value, name, one) && Reads(value, name, two) :: one == two
  {
  }

  /** Both values read the same under their names. */
  ghost predicate Agree(one: Option<Json>, name: string, two: Option<Json>, other: string) {
    exists text: string :: Reads(one, name, text) && Reads(two, other, text)
  }

  lemma AgreeIsSameText(one: Option<Json>, name: string, two: Option<Json>, other: string)
    ensures Agree(one, name, two, other) <==> MemberText(one, name).Some? && MemberText(one, name) == MemberText(two, other)
  {
    TextIsRead(one, name);
    TextIsRead(two, other);
    if MemberText(one, name).Some? {
      assert Reads(one, name, MemberText(one, name).value);
    }
  }

  /** The licence is an object of that product whose `active` is a truth value. */
  predicate IsLicense(license: Option<Json>, product: string) {
    Reads(license, "productCode", product) && "active" in license.value.members && license.value.members["active"].JBool?
  }

  /** The subscription is an object of that product and organisation. */
  ghost predicate IsSubscription(subscription: Option<Json>, org: Org, product: string, uuids: Uuids) {
    Reads(subscription, "productCode", product)
    && exists text: string :: Reads(subscription, "organizationId", text) && text in uuids && uuids[text] == org
  }

  /** If the licence is active, the subscription has its id and plan. */
  ghost predicate Covers(license: Json, subscription: Option<Json>) {
    license.JObject? && "active" in license.members && license.members["active"] == JBool(true) ==>
      Agree(subscription, "id", Some(license), "subscriptionId") && Agree(subscription, "planCode", Some(license), "planCode")
  }

  /** What a delivery must be to be accepted. */
  ghost predicate Sound(d: Delivery, uuids: Uuids) {
    && d.org.Some? && d.product.Some? && d.product.value != "" && d.revision.Some? && d.revision.value >= 1
    && d.confirmed.Some? && d.confirmed.value <= d.at + 300_000_000
    && IsLicense(d.license, d.product.value)
    && (d.subscription.None? || d.subscription == Some(JNull) || IsSubscription(d.subscription, d.org.value, d.product.value, uuids))
    && Covers(d.license.value, d.subscription)
  }

  lemma ScopeIsSubscription(d: Delivery, uuids: Uuids)
    requires d.org.Some? && d.product.Some?
    ensures ScopeRefusal(d, uuids).None?
       <==> d.subscription.None? || d.subscription == Some(JNull) || IsSubscription(d.subscription, d.org.value, d.product.value, uuids)
  {
    TextIsRead(d.subscription, "productCode");
    TextIsRead(d.subscription, "organizationId");
    var org := MemberText(d.subscription, "organizationId");
    if org.Some? {
      assert Reads(d.subscription, "organizationId", org.value);
    }
  }

  lemma MatchIsCover(license: Json, subscription: Option<Json>)
    requires license.JObject? && "active" in license.members && license.members["active"].JBool?
    ensures Covers(license, subscription) <==> (Active(license) ==> Matches(license, subscription))
  {
    AgreeIsSameText(subscription, "id", Some(license), "subscriptionId");
    AgreeIsSameText(subscription, "planCode", Some(license), "planCode");
  }

  /** A delivery is accepted exactly if its values are sound. */
  lemma AcceptedExactlyIfSound(d: Delivery, uuids: Uuids)
    ensures Refused(d, uuids).None? <==> Sound(d, uuids)
  {
    TextIsRead(d.license, "productCode");
    if WellFormed(d) {
      ScopeIsSubscription(d, uuids);
      MatchIsCover(d.license.value, Subscribed(d));
      NullCoversNothing(d.license.value);
    }
  }

  lemma NullCoversNothing(license: Json)
    ensures Covers(license, Some(JNull)) <==> Covers(license, None)
  {
  }

  class LicenseRegister {
    var rows: Register

    constructor ()
      ensures rows == map[]
    {
      rows := map[];
    }

    /** Returns whether the snapshot was stored. */
    method ApplySnapshot(d: Delivery, uuids: Uuids) returns (r: Result<bool, Refusal>)
      modifies this
      ensures rows == Applied(old(rows), d, uuids)
      ensures r.Err? ==> Refused(d, uuids) == Some(r.error) && rows == old(rows)
      ensures r.Ok? <==> Sound(d, uuids)
      ensures r.Ok? ==>
                var k := Key(d.org.value, d.product.value);
                && (r.value <==> k !in old(rows) || old(rows)[k].revision < d.revision.value)
                && (!r.value ==> rows == old(rows))
                && (r.value ==> rows == old(rows)[k := Row(d.revision.value, d.license.value,
                                                           if d.subscription == Some(JNull) then None else d.subscription,
                                                           1, d.confirmed.value, d.at)])
    {
      AcceptedExactlyIfSound(d, uuids);
      if !WellFormed(d) {
        return Err(InvalidSnapshot);
      }
      var scope := ScopeRefusal(d, uuids);
      if scope.Some? {
        return Err(scope.value);
      }
      if Active(d.license.value) && !Matches(d.license.value, Subscribed(d)) {
        return Err(UnmatchedLicense);
      }
      var k := Key(d.org.value, d.product.value);
      if k !in rows {
        rows := rows[k := RowOf(d)];
        return Ok(true);
      }
      if rows[k].revision < d.revision.value {
        rows := rows[k := RowOf(d)];
        return Ok(true);
      }
      r := Ok(false);
    }
  }

  // ---- runs ------------------------------------------------------------------------------------

  function Run(rows: Register, run: seq<Delivery>, uuids: Uuids): Register {
    if run == [] then rows else Applied(Run(rows, run[..|run| - 1], uuids), run[|run| - 1], uuids)
  }

  /** `i` is the first accepted delivery for the key among those with the highest revision. */
  predicate Wins(run: seq<Delivery>, uuids: Uuids, k: Key, i: nat) {
    && i < |run| && Accepts(run[i], uuids, k)
    && (forall j | 0 <= j < i && Accepts(run[j], uuids, k) :: run[j].revision.value < run[i].revision.value)
    && (forall j | i < j < |run| && Accepts(run[j], uuids, k) :: run[j].revision.value <= run[i].revision.value)
  }

  predicate Stores(rows: Register, run: seq<Delivery>, uuids: Uuids, k: Key) {
    if exists i | 0 <= i < |run| :: Accepts(run[i], uuids, k)
    then k in rows && exists i: nat | i < |run| :: Wins(run, uuids, k, i) && rows[k] == RowOf(run[i])
    else k !in rows
  }

  /** One more delivery keeps the winner or, if accepted and strictly newer, becomes it. */
  lemma WinnerAfter(run: seq<Delivery>, uuids: Uuids, k: Key, w: nat)
    requires run != [] && Wins(run[..|run| - 1], uuids, k, w)
    ensures var n := |run| - 1;
            Wins(run, uuids, k, if Accepts(run[n], uuids, k) && run[n].revision.value > run[w].revision.value then n else w)
  {
    var before := run[..|run| - 1];
    assert forall j | 0 <= j < |before| :: run[j] == before[j];
  }

  lemma FirstWinner(run: seq<Delivery>, uuids: Uuids, k: Key)
    requires run != [] && Accepts(run[|run| - 1], uuids, k)
    requires forall j | 0 <= j < |run| - 1 :: !Accepts(run[j], uuids, k)
    ensures Wins(run, uuids, k, |run| - 1)
  {
  }

  /** Convergence: after any deliveries, with duplicates, reordering and refusals, each key holds exactly the first
      accepted delivery with its highest revision, and only keys that had an accepted delivery hold anything. */
  lemma {:induction false} FirstOfTheNewest(run: seq<Delivery>, uuids: Uuids, k: Key)
    ensures Stores(Run(map[], run, uuids), run, uuids, k)
  {
    if run != [] {
      var n := |run| - 1;
      var before := run[..n];
      var rows := Run(map[], before, uuids);
      FirstOfTheNewest(before, uuids, k);
      assert forall j | 0 <= j < n :: run[j] == before[j];
      if k in rows {
        var w: nat :| w < n && Wins(before, uuids, k, w) && rows[k] == RowOf(before[w]);
        WinnerAfter(run, uuids, k, w);
      } else if Accepts(run[n], uuids, k) {
        FirstWinner(run, uuids, k);
      }
    }
  }

  /** What a row says, apart from when it arrived. */
  function Content(r: Row): Row {
    r.(receivedAt := 0)
  }

  function Contents(run: seq<Delivery>, uuids: Uuids, k: Key): set<Row> {
    set i | 0 <= i < |run| && Accepts(run[i], uuids, k) :: Content(RowOf(run[i]))
  }

  predicate OnePerRevision(contents: set<Row>) {
    forall a, b | a in contents && b in contents && a.revision == b.revision :: a == b
  }

  /** Order and repetition do not matter: two runs that delivered the same accepted contents for a key store the same content,
      when no revision comes with two contents. */
  lemma OrderDoesNotMatter(one: seq<Delivery>, two: seq<Delivery>, uuids: Uuids, k: Key)
    requires Contents(one, uuids, k) == Contents(two, uuids, k) && OnePerRevision(Contents(one, uuids, k))
    ensures k in Run(map[], one, uuids) <==> k in Run(map[], two, uuids)
    ensures k in Run(map[], one, uuids) ==> Content(Run(map[], one, uuids)[k]) == Content(Run(map[], two, uuids)[k])
  {
    FirstOfTheNewest(one, uuids, k);
    FirstOfTheNewest(two, uuids, k);
    SomeAccepted(one, uuids, k);
    SomeAccepted(two, uuids, k);
    if |Contents(one, uuids, k)| > 0 {
      Newest(one, uuids, k);
      Newest(two, uuids, k);
    }
  }

  lemma SomeAccepted(run: seq<Delivery>, uuids: Uuids, k: Key)
    ensures |Contents(run, uuids, k)| > 0 <==> exists i | 0 <= i < |run| :: Accepts(run[i], uuids, k)
  {
    if i :| 0 <= i < |run| && Accepts(run[i], uuids, k) {
      assert Content(RowOf(run[i])) in Contents(run, uuids, k);
    } else {
      assert Contents(run, uuids, k) == {};
    }
  }

  /** The stored content is one of those delivered and none of them is newer. */
  lemma Newest(run: seq<Delivery>, uuids: Uuids, k: Key)
    requires exists i | 0 <= i < |run| :: Accepts(run[i], uuids, k)
    ensures k in Run(map[], run, uuids)
    ensures var stored := Content(Run(map[], run, uuids)[k]);
            stored in Contents(run, uuids, k) && forall c | c in Contents(run, uuids, k) :: c.revision <= stored.revision
  {
    FirstOfTheNewest(run, uuids, k);
    var w: nat :| w < |run| && Wins(run, uuids, k, w) && Run(map[], run, uuids)[k] == RowOf(run[w]);
    assert Content(RowOf(run[w])) in Contents(run, uuids, k);
    forall c | c in Contents(run, uuids, k) ensures c.revision <= run[w].revision.value {
      var i :| 0 <= i < |run| && Accepts(run[i], uuids, k) && c == Content(RowOf(run[i]));
    }
  }

  /** Exactly when two deliveries of one revision commute: if and only if they carry the same content. */
  lemma TieKeepsTheFirst(a: Delivery, b: Delivery, uuids: Uuids, k: Key)
    requires Accepts(a, uuids, k) && Accepts(b, uuids, k) && a.revision == b.revision
    ensures k in Run(map[], [a, b], uuids) && k in Run(map[], [b, a], uuids)
    ensures Content(Run(map[], [a, b], uuids)[k]) == Content(Run(map[], [b, a], uuids)[k]) <==> Content(RowOf(a)) == Content(RowOf(b))
  {
    TwoOfOneRevision(a, b, uuids, k);
    TwoOfOneRevision(b, a, uuids, k);
  }

  lemma TwoOfOneRevision(a: Delivery, b: Delivery, uuids: Uuids, k: Key)
    requires Accepts(a, uuids, k) && Accepts(b, uuids, k) && a.revision == b.revision
    ensures Run(map[], [a, b], uuids) == map[k := RowOf(a)]
  {
    assert [a, b][..1] == [a] && [a][..0] == [];
    assert Run(map[], [a], uuids) == Applied(Run(map[], [], uuids), a, uuids);
  }

  // ---- what a stored licence guarantees ------------------------------------------------------------

  /** A row written from a snapshot: its licence is one of the product of its key, its subscription, if any, is of the same
      organisation and product, and if the licence is active there is one with its id and plan. */
  ghost predicate Backed(k: Key, r: Row, uuids: Uuids) {
    r.version == 1 ==>
      && r.revision >= 1 && IsLicense(Some(r.license), k.product)
      && (r.subscription.Some? ==> IsSubscription(r.subscription, k.org, k.product, uuids))
      && (r.license.members["active"] == JBool(true) ==>
            r.subscription.Some? && Agree(r.subscription, "id", Some(r.license), "subscriptionId")
            && Agree(r.subscription, "planCode", Some(r.license), "planCode"))
  }

  ghost predicate AllBacked(rows: Register, uuids: Uuids) {
    forall k | k in rows :: Backed(k, rows[k], uuids)
  }

  lemma AcceptedIsBacked(d: Delivery, uuids: Uuids)
    requires Refused(d, uuids).None?
    ensures Backed(Key(d.org.value, d.product.value), RowOf(d), uuids)
  {
    AcceptedExactlyIfSound(d, uuids);
  }

  lemma AppliedIsBacked(rows: Register, d: Delivery, uuids: Uuids)
    requires AllBacked(rows, uuids)
    ensures AllBacked(Applied(rows, d, uuids), uuids)
  {
    var end := Applied(rows, d, uuids);
    forall k | k in end ensures Backed(k, end[k], uuids) {
      if k !in rows || end[k] != rows[k] {
        AcceptedIsBacked(d, uuids);
      }
    }
  }

  /** Over any run, from any rows that existed before snapshots, every active licence stored from a snapshot has a subscription with
      its id and plan, in its own organisation and product. */
  lemma {:induction false} ActiveLicensesAreBacked(rows: Register, run: seq<Delivery>, uuids: Uuids)
    requires AllBacked(rows, uuids)
    ensures AllBacked(Run(rows, run, uuids), uuids)
  {
    if run != [] {
      ActiveLicensesAreBacked(rows, run[..|run| - 1], uuids);
      var before := Run(rows, run[..|run| - 1], uuids);
      var d := run[|run| - 1];
      assert Run(rows, run, uuids) == Applied(before, d, uuids);
      AppliedIsBacked(before, d, uuids);
    }
  }
}
