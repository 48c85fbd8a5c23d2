/**
 * The choices of the external_auth_service field: the built-in "default"
 * service followed by one entry per federated realm that the realm
 * directory reports (Login.get_external_auth_services).
 */
module AuthServices {
  import opened Wrappers

  /** One realm record of the directory reply, a JSON object read with item.get(key). */
  type RealmRecord = map<string, string>

  /**
   * The dict returned by getRealmList: `realms` is the value of its "realms"
   * key (None when that key is absent) and `otherKeys` are its other keys.
   * The whole reply is None when the directory returned nothing.
   */
  datatype DirectoryReply = DirectoryReply(realms: Option<seq<RealmRecord>>, otherKeys: set<string>)

  /** A reply that some dict can produce: "realms" is never among the other keys. */
  type RealmListReply = r: DirectoryReply | "realms" !in r.otherKeys witness DirectoryReply(None, {})

  /** A (value, label) choice; either part is None when the realm record lacks "id" or "name". */
  datatype ServiceChoice = ServiceChoice(value: Option<string>, display: Option<string>)

  /** The entry for direct (non-federated) login, always offered first. */
  const DefaultService := ServiceChoice(Some("default"), Some("Default"))

  /** item.get(key) */
  function Lookup(item: RealmRecord, key: string): Option<string> {
    if key in item then Some(item[key]) else None
  }

  /** The choice offered for one realm record: (item.get('id'), item.get('name')). */
  function ChoiceOf(item: RealmRecord): (c: ServiceChoice)
    ensures c.value.Some? <==> "id" in item
    ensures c.display.Some? <==> "name" in item
    ensures "id" in item ==> c.value.value == item["id"]
    ensures "name" in item ==> c.display.value == item["name"]
  {
    ServiceChoice(Lookup(item, "id"), Lookup(item, "name"))
  }

  /** Python truthiness of the reply: None and the empty dict are false. */
  predicate Truthy(reply: Option<RealmListReply>)
    ensures reply.None? ==> !Truthy(reply)
    ensures reply == Some(DirectoryReply(None, {})) ==> !Truthy(reply)
    ensures reply.Some? && reply.value.realms.Some? ==> Truthy(reply)
    ensures reply.Some? && reply.value.otherKeys != {} ==> Truthy(reply)
  {
    reply.Some? && (reply.value.realms.Some? || reply.value.otherKeys != {})
  }

  /** The realm records the loop visits: realmlist.get("realms", []) when the reply is truthy. */
  function VisitedRealms(reply: Option<RealmListReply>): (items: seq<RealmRecord>)
    ensures reply.Some? && reply.value.realms.Some? ==> items == reply.value.realms.value
    ensures reply.None? || reply.value.realms.None? ==> items == []
  {
    if Truthy(reply) then reply.value.realms.GetOr([]) else []
  }

  /** The choices for a sequence of realm records, built from the back as the loop appends. */
  function RealmChoices(items: seq<RealmRecord>): seq<ServiceChoice> {
    if items == [] then [] else RealmChoices(items[..|items| - 1]) + [ChoiceOf(items[|items| - 1])]
  }

  /** The k-th realm choice is the choice of the k-th realm record, and there is one per record. */
  lemma {:induction false} RealmChoicesAt(items: seq<RealmRecord>, k: nat)
    requires k < |items|
    ensures |RealmChoices(items)| == |items|
    ensures RealmChoices(items)[k] == ChoiceOf(items[k])
  {
    var n := |items| - 1;
    if k < n {
      RealmChoicesAt(items[..n], k);
    } else if n > 0 {
      RealmChoicesAt(items[..n], 0);
    }
  }

  /** The service list the form offers for a directory reply. */
  function ServiceList(reply: Option<RealmListReply>): (services: seq<ServiceChoice>)
    ensures |services| == 1 + |VisitedRealms(reply)|
    ensures services[0] == DefaultService
    ensures forall k :: 0 <= k < |VisitedRealms(reply)| ==>
              services[k + 1] == ChoiceOf(VisitedRealms(reply)[k])
  {
    var items := VisitedRealms(reply);
    if items == [] then [DefaultService]
    else
      RealmChoicesAt(items, 0);
      assert forall k :: 0 <= k < |items| ==> RealmChoices(items)[k] == ChoiceOf(items[k]) by {
        forall k | 0 <= k < |items| ensures RealmChoices(items)[k] == ChoiceOf(items[k]) {
          RealmChoicesAt(items, k);
        }
      }
      [DefaultService] + RealmChoices(items)
  }

  /** A reply that is falsy or has no "realms" key offers only the default service. */
  lemma NoRealmsOnlyDefault(reply: Option<RealmListReply>)
    requires !Truthy(reply) || reply.value.realms.None?
    ensures ServiceList(reply) == [DefaultService]
  {
  }

  /** Every realm record of the reply is offered, and every offer after the first comes from one. */
  lemma ServiceListMembership(reply: Option<RealmListReply>, c: ServiceChoice)
    ensures c in ServiceList(reply)[1..] <==> exists item :: item in VisitedRealms(reply) && c == ChoiceOf(item)
  {
    var items, services := VisitedRealms(reply), ServiceList(reply);
    if c in services[1..] {
      var j :| 0 <= j < |services[1..]| && services[1..][j] == c;
      assert c == ChoiceOf(items[j]);
    }
    if exists item :: item in items && c == ChoiceOf(item) {
      var item :| item in items && c == ChoiceOf(item);
      var j :| 0 <= j < |items| && items[j] == item;
      assert services[1..][j] == c;
    }
  }

  /**
   * get_external_auth_services: start from the default entry and append one
   * choice per realm record, in the order the directory lists them.
   */
  method ExternalAuthServices(reply: Option<RealmListReply>) returns (serviceList: seq<ServiceChoice>)
    ensures serviceList == ServiceList(reply)
  {
    serviceList := [DefaultService];
    if Truthy(reply) {
      var items := reply.value.realms.GetOr([]);
      for k := 0 to |items|
        invariant serviceList == [DefaultService] + RealmChoices(items[..k])
      {
        assert items[..k + 1][..k] == items[..k];
        serviceList := serviceList + [ChoiceOf(items[k])];
      }
      assert items[..|items|] == items;
    }
  }
}
