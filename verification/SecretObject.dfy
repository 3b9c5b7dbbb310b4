/** The Secret the reconciler holds in memory and changes in place before it writes it back. */
module SecretObject {
  import opened Text
  import opened Types
  import opened Tsidp
  import opened Secrets

  /** The keys of an older template that the present one no longer has are deleted. */
  method DropRecorded(m: map<string, string>, recorded: seq<string>, entries: map<string, string>)
    returns (out: map<string, string>)
    ensures out == m - (set k | k in recorded && k !in entries)
  {
    out := m;
    for i := 0 to |recorded|
      invariant out == m - (set k | k in recorded[..i] && k !in entries)
    {
      if recorded[i] !in entries {
        out := out - {recorded[i]};
      }
    }
    assert recorded[..|recorded|] == recorded;
  }

  /** The entries of a map set one by one in the map's own arbitrary order, their keys collected
      and sorted: neither result depends on that order. */
  method SetEntries(m: map<string, string>, entries: map<string, string>)
    returns (out: map<string, string>, keys: seq<string>)
    ensures out == m + entries
    ensures keys == Ascending(entries.Keys)
  {
    hide Ascending, Sort, Sorted;
    out, keys := m, [];
    var left := entries.Keys;
    while left != {}
      invariant left <= entries.Keys
      invariant forall k | k !in entries || k in left :: Lookup(out, k) == Lookup(m, k)
      invariant forall k | k in entries && k !in left :: Lookup(out, k) == Some(entries[k])
      invariant multiset(keys) == multiset(entries.Keys - left)
      decreases left
    {
      var k :| k in left;
      out := out[k := entries[k]];
      keys := keys + [k];
      assert entries.Keys - (left - {k}) == (entries.Keys - left) + {k};
      left := left - {k};
    }
    AllEntriesSet(m, entries, out, keys, left);
    keys := Sort(keys);
  }

  lemma AllEntriesSet(m: map<string, string>, entries: map<string, string>, out: map<string, string>,
      keys: seq<string>, left: set<string>)
    requires left == {} && multiset(keys) == multiset(entries.Keys - left)
    requires forall k | k !in entries || k in left :: Lookup(out, k) == Lookup(m, k)
    requires forall k | k in entries && k !in left :: Lookup(out, k) == Some(entries[k])
    ensures out == m + entries && Sort(keys) == Ascending(entries.Keys)
  {
    assert entries.Keys - left == entries.Keys;
    SortOfKeys(keys, entries.Keys);
    hide *;
    SameLookups(out, m, entries, left);
  }

  lemma SameLookups(out: map<string, string>, m: map<string, string>, entries: map<string, string>, left: set<string>)
    requires left == {}
    requires forall k | k !in entries || k in left :: Lookup(out, k) == Lookup(m, k)
    requires forall k | k in entries && k !in left :: Lookup(out, k) == Some(entries[k])
    ensures out == m + entries
  {
    hide Sort, Ascending;
    forall k ensures k in out <==> k in m + entries {
      assert k !in entries ==> Lookup(out, k) == Lookup(m, k);
      assert k in entries ==> Lookup(out, k) == Some(entries[k]);
    }
    forall k | k in out ensures out[k] == (m + entries)[k] {
      assert k !in entries ==> Lookup(out, k) == Lookup(m, k);
      assert k in entries ==> Lookup(out, k) == Some(entries[k]);
    }
  }

  /** Overwriting the reserved key after the fact leaves nothing of it behind. */
  lemma ReservedLast(key: string, m: map<string, string>, recorded: seq<string>, entries: map<string, string>)
    ensures Converge(m, recorded, entries) - {key} == ConvergeBut(key, m, recorded, entries)
  {
  }

  lemma RecordedKeys(t: Template)
    ensures var (l, a) := (Ascending(t.labels.Keys), Ascending(t.annotations.Keys));
            RecordFor(t) == if l == [] && a == [] then None else Some(Record(l, a))
  {
    AscendingMembers(t.labels.Keys);
    AscendingMembers(t.annotations.Keys);
  }

  class SecretObject {
    const uid: nat
    const rv: nat
    var owner: Option<string>
    var labels: map<string, string>
    var annotations: map<string, string>
    var record: Option<Record>
    var data: map<string, string>

    function Value(): Secret reads this {
      Secret(uid, rv, owner, labels, annotations, record, data)
    }

    constructor (s: Secret)
      ensures Value() == s
    {
      uid, rv, owner := s.uid, s.rv, s.owner;
      labels, annotations, record, data := s.labels, s.annotations, s.record, s.data;
    }

    method ConvergeLabels(recorded: seq<string>, entries: map<string, string>) returns (keys: seq<string>)
      modifies this`labels
      ensures labels == Converge(old(labels), recorded, entries) && keys == Ascending(entries.Keys)
    {
      hide Ascending;
      labels := DropRecorded(labels, recorded, entries);
      labels, keys := SetEntries(labels, entries);
    }

    /** The record is an annotation of its own: what a template sets under its key is overwritten. */
    method ConvergeAnnotations(recorded: seq<string>, entries: map<string, string>) returns (keys: seq<string>)
      modifies this`annotations
      ensures annotations == ConvergeBut(RECORD_KEY, old(annotations), recorded, entries)
                && keys == Ascending(entries.Keys)
    {
      hide Ascending;
      ReservedLast(RECORD_KEY, annotations, recorded, entries);
      annotations := DropRecorded(annotations, recorded, entries);
      annotations, keys := SetEntries(annotations, entries);
      annotations := annotations - {RECORD_KEY};
    }

    /** applySecretTemplate. */
    method ApplyTemplate(t: Template)
      modifies this
      ensures Value() == Applied(old(Value()), t)
    {
      hide Ascending, Sorted, Converge, ConvergeBut, RecordFor;
      var prev := if record.Some? then record.value else Record([], []);
      var labelKeys := ConvergeLabels(prev.labels, t.labels);
      var annotationKeys := ConvergeAnnotations(prev.annotations, t.annotations);
      RecordedKeys(t);
      record := if labelKeys == [] && annotationKeys == [] then None else Some(Record(labelKeys, annotationKeys));
    }

    /** setSecretMetadata. */
    method SetMetadata(d: Discovery, uris: seq<string>)
      modifies this`data
      ensures Value() == old(Value()).(data := WithMetadata(old(data), d, uris))
      ensures CurrentMetadata(data, d, uris) && Publishes(data, d, uris)
    {
      MetadataContents(data, d, uris);
      data := data["issuer" := d.issuer];
      data := data["discovery_endpoint" := TrimSlash(d.issuer) + "/.well-known/openid-configuration"];
      data := data["authorization_endpoint" := d.authorization];
      data := data["token_endpoint" := d.token];
      data := data["userinfo_endpoint" := d.userinfo];
      data := data["jwks_uri" := d.jwks];
      data := data["redirect_uris" := Join(uris)];
      MetadataPublished(data, d, uris);
      hide CurrentMetadata, Publishes, TrimSlash, Join;
    }

    /** The mutation CreateOrUpdate makes: template, managed label, credentials if there are new
        ones, metadata, controller reference. */
    method Mutate(oc: OIDCClient, d: Discovery, cred: Option<Credentials>)
      modifies this
      ensures Value() == Wanted(old(Value()), oc, d, cred)
      ensures Shows(Value(), oc.spec.template) && Publishes(data, d, oc.spec.redirectURIs)
    {
      hide Shows, Publishes, CurrentMetadata;
      WantedShows(Value(), oc, d, cred);
      ApplyTemplate(TemplateOf(oc.spec));
      labels := labels[MANAGED_KEY := MANAGED_VALUE];
      if cred.Some? {
        data := data[CLIENT_ID := cred.value.id];
        data := data[CLIENT_SECRET := cred.value.secret];
      }
      SetMetadata(d, oc.spec.redirectURIs);
      owner := Some(oc.id.uid);
    }
  }
}
