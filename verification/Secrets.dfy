/** The credentials Secret: template metadata, the managed label and the data keys. */
module Secrets {
  import opened Text
  import opened Types
  import opened Tsidp

  /** The template keys last applied, as recorded in an annotation of the Secret. */
  datatype Record = Record(labels: seq<string>, annotations: seq<string>)

  /** A Secret as the API server stores it. The record annotation is held apart from the other
      annotations, decoded; owner is the uid of the controller reference. */
  datatype Secret = Secret(
    uid: nat,
    rv: nat,
    owner: Option<string>,
    labels: map<string, string>,
    annotations: map<string, string>,
    record: Option<Record>,
    data: map<string, string>)

  const NEW := Secret(0, 0, None, map[], map[], None, map[])

  const RECORD_KEY := "tsidp.isvaldi-consulting.github.io/template-keys"
  const MANAGED_KEY := "app.kubernetes.io/managed-by"
  const MANAGED_VALUE := "tsidp-operator"

  const CLIENT_ID := "client_id"
  const CLIENT_SECRET := "client_secret"

  // ---------------------------------------------------------------- template metadata

  function RecordOf(s: Secret): Record {
    match s.record
    case None => Record([], [])
    case Some(r) => r
  }

  /** One map after a template: recorded keys the template dropped are gone, its entries are set. */
  function Converge(m: map<string, string>, recorded: seq<string>, entries: map<string, string>): map<string, string> {
    (m - (set k | k in recorded && k !in entries)) + entries
  }

  /** The same, leaving out one reserved key. */
  function ConvergeBut(key: string, m: map<string, string>, recorded: seq<string>,
      entries: map<string, string>): map<string, string> {
    Converge(m, recorded, entries - {key}) - {key}
  }

  function Lookup(m: map<string, string>, k: string): Option<string> {
    if k in m then Some(m[k]) else None
  }

  /** One step at one key: the entry, else the old value unless the record names the key. */
  lemma ConvergeAt(key: string, m: map<string, string>, recorded: seq<string>, entries: map<string, string>, k: string)
    ensures var kept := if k in recorded then None else Lookup(m, k);
            && Lookup(Converge(m, recorded, entries), k) == (if k in entries then Lookup(entries, k) else kept)
            && (k != key ==>
                  Lookup(ConvergeBut(key, m, recorded, entries), k) ==
                    (if k in entries then Lookup(entries, k) else kept))
  {
  }

  function RecordFor(t: Template): Option<Record> {
    if t.labels == map[] && t.annotations == map[] then None
    else Some(Record(Ascending(t.labels.Keys), Ascending(t.annotations.Keys)))
  }

  /** The Secret after a template was applied to it. An annotation the template gives under the
      record's own key is overwritten by the record. */
  function Applied(s: Secret, t: Template): Secret {
    s.(labels := Converge(s.labels, RecordOf(s).labels, t.labels),
       annotations := ConvergeBut(RECORD_KEY, s.annotations, RecordOf(s).annotations, t.annotations),
       record := RecordFor(t))
  }

  /** The record names exactly the template's keys, in ascending order, and is absent exactly when
      the template is empty. */
  lemma RecordExact(s: Secret, t: Template)
    ensures var r := RecordOf(Applied(s, t));
            && Sorted(r.labels) && Sorted(r.annotations)
            && (forall k :: k in r.labels <==> k in t.labels)
            && (forall k :: k in r.annotations <==> k in t.annotations)
            && (Applied(s, t).record == None <==> t.labels.Keys == {} && t.annotations.Keys == {})
  {
    AscendingMembers(t.labels.Keys);
    AscendingMembers(t.annotations.Keys);
    assert t.labels.Keys == {} <==> t.labels == map[];
    assert t.annotations.Keys == {} <==> t.annotations == map[];
  }

  function AppliedAll(s: Secret, ts: seq<Template>): Secret {
    if ts == [] then s else Applied(AppliedAll(s, ts[..|ts| - 1]), ts[|ts| - 1])
  }

  /** Some template of the history sets the label key. */
  predicate LabelEver(ts: seq<Template>, k: string) {
    exists i | 0 <= i < |ts| :: k in ts[i].labels
  }

  predicate AnnotationEver(ts: seq<Template>, k: string) {
    exists i | 0 <= i < |ts| :: k in ts[i].annotations
  }

  lemma EverSplit(ts: seq<Template>, k: string)
    requires ts != []
    ensures var (init, last) := (ts[..|ts| - 1], ts[|ts| - 1]);
            && (LabelEver(ts, k) <==> LabelEver(init, k) || k in last.labels)
            && (AnnotationEver(ts, k) <==> AnnotationEver(init, k) || k in last.annotations)
  {
    var init := ts[..|ts| - 1];
    if LabelEver(init, k) {
      var i :| 0 <= i < |init| && k in init[i].labels;
      assert ts[i] == init[i];
    }
    if AnnotationEver(init, k) {
      var i :| 0 <= i < |init| && k in init[i].annotations;
      assert ts[i] == init[i];
    }
    if k in ts[|ts| - 1].labels {
      assert LabelEver(ts, k);
    }
    if k in ts[|ts| - 1].annotations {
      assert AnnotationEver(ts, k);
    }
    if LabelEver(ts, k) {
      var i :| 0 <= i < |ts| && k in ts[i].labels;
      assert i < |init| ==> init[i] == ts[i];
    }
    if AnnotationEver(ts, k) {
      var i :| 0 <= i < |ts| && k in ts[i].annotations;
      assert i < |init| ==> init[i] == ts[i];
    }
  }

  /** Template history law: after any non-empty history of templates, a label has the last
      template's value if that sets it; otherwise it has its initial value, unless the initial
      record or some template of the history names it, in which case it is gone. The same holds
      of every annotation but the record itself. */
  lemma {:induction false} TemplateHistory(s: Secret, ts: seq<Template>, k: string)
    requires ts != []
    ensures var (out, last) := (AppliedAll(s, ts), ts[|ts| - 1]);
            && Lookup(out.labels, k) ==
                 (if k in last.labels then Lookup(last.labels, k)
                  else if k in RecordOf(s).labels || LabelEver(ts, k) then None
                  else Lookup(s.labels, k))
            && (k != RECORD_KEY ==>
                  Lookup(out.annotations, k) ==
                    (if k in last.annotations then Lookup(last.annotations, k)
                     else if k in RecordOf(s).annotations || AnnotationEver(ts, k) then None
                     else Lookup(s.annotations, k)))
  {
    var init, last := ts[..|ts| - 1], ts[|ts| - 1];
    var before := AppliedAll(s, init);
    ConvergeAt(RECORD_KEY, before.labels, RecordOf(before).labels, last.labels, k);
    ConvergeAt(RECORD_KEY, before.annotations, RecordOf(before).annotations, last.annotations, k);
    EverSplit(ts, k);
    if init == [] {
      assert !LabelEver(init, k) && !AnnotationEver(init, k);
    } else {
      TemplateHistory(s, init, k);
      RecordExact(AppliedAll(s, init[..|init| - 1]), init[|init| - 1]);
      EverSplit(init, k);
    }
  }

  // ---------------------------------------------------------------- the whole mutation

  function TrimSlash(s: string): string {
    if s != "" && s[|s| - 1] == '/' then s[..|s| - 1] else s
  }

  function WithMetadata(data: map<string, string>, d: Discovery, uris: seq<string>): map<string, string> {
    data[
      "issuer" := d.issuer][
      "discovery_endpoint" := TrimSlash(d.issuer) + "/.well-known/openid-configuration"][
      "authorization_endpoint" := d.authorization][
      "token_endpoint" := d.token][
      "userinfo_endpoint" := d.userinfo][
      "jwks_uri" := d.jwks][
      "redirect_uris" := Join(uris)]
  }

  function WithCredentials(data: map<string, string>, cred: Option<Credentials>): map<string, string> {
    match cred
    case None => data
    case Some(c) => data[CLIENT_ID := c.id][CLIENT_SECRET := c.secret]
  }

  /** The Secret upsertSecret wants, given the one it read (or NEW): template, managed label,
      credentials if there are new ones, metadata, controller reference. */
  function Wanted(s: Secret, oc: OIDCClient, d: Discovery, cred: Option<Credentials>): Secret {
    var t := Applied(s, TemplateOf(oc.spec));
    t.(labels := t.labels[MANAGED_KEY := MANAGED_VALUE],
       data := WithMetadata(WithCredentials(s.data, cred), d, oc.spec.redirectURIs),
       owner := Some(oc.id.uid))
  }

  /** The metadata keys never touch the credentials, and hold what discovery and spec say. */
  lemma MetadataContents(data: map<string, string>, d: Discovery, uris: seq<string>)
    ensures var m := WithMetadata(data, d, uris);
            && (forall k | k in {CLIENT_ID, CLIENT_SECRET} ::
                  (k in m <==> k in data) && (k in m ==> m[k] == data[k]))
            && CurrentMetadata(m, d, uris)
  {
    KeysDistinct();
  }

  /** The nine data keys differ pairwise: each two differ in length or in the letter shown. */
  lemma KeysDistinct()
    ensures |CLIENT_ID| == 9 && CLIENT_ID[0] == 'c'
    ensures |CLIENT_SECRET| == 13 && CLIENT_SECRET[0] == 'c'
    ensures |"issuer"| == 6 && |"discovery_endpoint"| == 18 && |"authorization_endpoint"| == 22
    ensures |"token_endpoint"| == 14 && |"userinfo_endpoint"| == 17 && |"jwks_uri"| == 8
    ensures |"redirect_uris"| == 13 && "redirect_uris"[0] == 'r'
  {
  }

  predicate CurrentMetadata(m: map<string, string>, d: Discovery, uris: seq<string>) {
    && "issuer" in m && m["issuer"] == d.issuer
    && "discovery_endpoint" in m
    && m["discovery_endpoint"] == TrimSlash(d.issuer) + "/.well-known/openid-configuration"
    && "authorization_endpoint" in m && m["authorization_endpoint"] == d.authorization
    && "token_endpoint" in m && m["token_endpoint"] == d.token
    && "userinfo_endpoint" in m && m["userinfo_endpoint"] == d.userinfo
    && "jwks_uri" in m && m["jwks_uri"] == d.jwks
    && "redirect_uris" in m && m["redirect_uris"] == Join(uris)
  }

  /** The discovery URL of an issuer: the well-known path, after exactly one slash. */
  ghost predicate DiscoveryOf(url: string, issuer: string) {
    && (forall base :: issuer == base + "/" ==> url == base + "/.well-known/openid-configuration")
    && (issuer == "" || issuer[|issuer| - 1] != '/' ==> url == issuer + "/.well-known/openid-configuration")
  }

  lemma DiscoveryExact(issuer: string)
    ensures DiscoveryOf(TrimSlash(issuer) + "/.well-known/openid-configuration", issuer)
  {
    forall base | issuer == base + "/" ensures TrimSlash(issuer) == base {
      assert issuer[|issuer| - 1] == '/' && issuer[..|issuer| - 1] == base;
    }
  }

  /** What the data of a credentials Secret publishes. */
  ghost predicate Publishes(m: map<string, string>, d: Discovery, uris: seq<string>) {
    && "issuer" in m && m["issuer"] == d.issuer
    && "discovery_endpoint" in m && DiscoveryOf(m["discovery_endpoint"], d.issuer)
    && "authorization_endpoint" in m && m["authorization_endpoint"] == d.authorization
    && "token_endpoint" in m && m["token_endpoint"] == d.token
    && "userinfo_endpoint" in m && m["userinfo_endpoint"] == d.userinfo
    && "jwks_uri" in m && m["jwks_uri"] == d.jwks
    && "redirect_uris" in m && (Separable(uris) ==> Split(m["redirect_uris"]) == uris)
  }

  /** A list that a newline-separated string can hold. */
  predicate Separable(uris: seq<string>) {
    uris != [] && forall i | 0 <= i < |uris| :: '\n' !in uris[i]
  }

  lemma MetadataPublished(m: map<string, string>, d: Discovery, uris: seq<string>)
    requires CurrentMetadata(m, d, uris)
    ensures Publishes(m, d, uris)
  {
    DiscoveryExact(d.issuer);
    if Separable(uris) { SplitJoin(uris); }
    hide TrimSlash, DiscoveryOf, Join, Split;
  }

  /** What a Secret shows of the template it was last upserted with: every label and annotation of it
      but the two reserved ones, and a record that lists exactly its keys, in ascending order. */
  ghost predicate Shows(s: Secret, template: Option<Template>) {
    && "app.kubernetes.io/managed-by" in s.labels && s.labels["app.kubernetes.io/managed-by"] == "tsidp-operator"
    && match template
       case None => s.record == None
       case Some(t) =>
         && (forall k | k in t.labels && k != "app.kubernetes.io/managed-by" ::
               k in s.labels && s.labels[k] == t.labels[k])
         && (forall k | k in t.annotations && k != "tsidp.isvaldi-consulting.github.io/template-keys" ::
               k in s.annotations && s.annotations[k] == t.annotations[k])
         && (s.record == None <==> t.labels.Keys == {} && t.annotations.Keys == {})
         && (s.record.Some? ==>
               && Sorted(s.record.value.labels) && (forall k :: k in s.record.value.labels <==> k in t.labels)
               && Sorted(s.record.value.annotations)
                  && (forall k :: k in s.record.value.annotations <==> k in t.annotations))
  }

  /** The entries of a template are where it was applied. */
  lemma EntriesApplied(s: Secret, t: Template)
    ensures forall k | k in t.labels :: k in Applied(s, t).labels && Applied(s, t).labels[k] == t.labels[k]
    ensures forall k | k in t.annotations && k != RECORD_KEY ::
              k in Applied(s, t).annotations && Applied(s, t).annotations[k] == t.annotations[k]
  {
    hide RecordFor, RecordOf;
  }

  /** An upsert leaves the template's part as the template step made it, the managed label apart. */
  lemma WantedApplied(s: Secret, oc: OIDCClient, d: Discovery, cred: Option<Credentials>)
    ensures var (w, t) := (Wanted(s, oc, d, cred), Applied(s, TemplateOf(oc.spec)));
            && w.labels == t.labels[MANAGED_KEY := MANAGED_VALUE]
            && w.annotations == t.annotations && w.record == t.record
  {
    hide WithMetadata, WithCredentials, Applied;
  }

  lemma ShowsApplied(w: Secret, s: Secret, spec: Spec)
    requires var t := Applied(s, TemplateOf(spec));
             && w.labels == t.labels[MANAGED_KEY := MANAGED_VALUE]
             && w.annotations == t.annotations && w.record == t.record
    ensures Shows(w, spec.template)
  {
    var t := TemplateOf(spec);
    RecordExact(s, t);
    EntriesApplied(s, t);
    hide Sorted, Applied;
  }

  lemma WantedShows(s: Secret, oc: OIDCClient, d: Discovery, cred: Option<Credentials>)
    ensures Shows(Wanted(s, oc, d, cred), oc.spec.template)
  {
    WantedApplied(s, oc, d, cred);
    ShowsApplied(Wanted(s, oc, d, cred), s, oc.spec);
    hide Wanted, Applied, Shows;
  }

  /** A template sets or drops the managed label in vain: upserting always ends with its fixed
      value, and every other label obeys the history law. */
  lemma ManagedLabelWins(s: Secret, oc: OIDCClient, d: Discovery, cred: Option<Credentials>)
    ensures var (w, t) := (Wanted(s, oc, d, cred), Applied(s, TemplateOf(oc.spec)));
            && MANAGED_KEY in w.labels && w.labels[MANAGED_KEY] == MANAGED_VALUE
            && w.labels - {MANAGED_KEY} == t.labels - {MANAGED_KEY}
            && w.annotations == t.annotations && w.record == t.record
  {
  }

  /** Setting a label after converging, then both again with the record just written. */
  lemma RelabelIdempotent(m: map<string, string>, recorded: seq<string>, again: seq<string>,
      entries: map<string, string>, k: string, v: string)
    requires forall x :: x in again ==> x in entries
    ensures var l := Converge(m, recorded, entries)[k := v]; Converge(l, again, entries)[k := v] == l
  {
  }

  lemma ReannotateIdempotent(key: string, m: map<string, string>, recorded: seq<string>, again: seq<string>,
      entries: map<string, string>)
    requires forall x :: x in again ==> x in entries
    ensures var l := ConvergeBut(key, m, recorded, entries); ConvergeBut(key, l, again, entries) == l
  {
  }

  lemma MetadataFixed(data: map<string, string>, d: Discovery, uris: seq<string>)
    ensures WithMetadata(WithMetadata(data, d, uris), d, uris) == WithMetadata(data, d, uris)
  {
    MetadataContents(data, d, uris);
  }

  /** The template, label, metadata and owner steps compose to an idempotent map: upserting what
      an upsert wrote changes nothing. */
  lemma WantedIdempotent(s: Secret, oc: OIDCClient, d: Discovery, cred: Option<Credentials>)
    ensures var w := Wanted(s, oc, d, cred); Wanted(w, oc, d, None) == w
  {
    var t := TemplateOf(oc.spec);
    var w := Wanted(s, oc, d, cred);
    RecordExact(s, t);
    assert RecordOf(w) == RecordOf(Applied(s, t));
    RelabelIdempotent(s.labels, RecordOf(s).labels, RecordOf(w).labels, t.labels, MANAGED_KEY, MANAGED_VALUE);
    ReannotateIdempotent(RECORD_KEY, s.annotations, RecordOf(s).annotations, RecordOf(w).annotations, t.annotations);
    MetadataFixed(WithCredentials(s.data, cred), d, oc.spec.redirectURIs);
  }

  // ---------------------------------------------------------------- a history of upserts

  datatype Upsert = Upsert(oc: OIDCClient, disc: Discovery, cred: Option<Credentials>)

  function UpsertAll(s: Secret, us: seq<Upsert>): Secret {
    if us == [] then s
    else
      var u := us[|us| - 1];
      Wanted(UpsertAll(s, us[..|us| - 1]), u.oc, u.disc, u.cred)
  }

  function TemplatesOf(us: seq<Upsert>): seq<Template> {
    seq(|us|, i requires 0 <= i < |us| => TemplateOf(us[i].oc.spec))
  }

  /** Apart from the managed label, upserts do to the metadata what their templates do. */
  lemma {:induction false} UpsertsApply(s: Secret, us: seq<Upsert>, k: string)
    ensures var (up, ap) := (UpsertAll(s, us), AppliedAll(s, TemplatesOf(us)));
            && up.record == ap.record && up.annotations == ap.annotations
            && (k != MANAGED_KEY ==> Lookup(up.labels, k) == Lookup(ap.labels, k))
  {
    if us != [] {
      var init, u, ts := us[..|us| - 1], us[|us| - 1], TemplatesOf(us);
      assert ts[..|ts| - 1] == TemplatesOf(init);
      UpsertsApply(s, init, k);
      var up, ap, t := UpsertAll(s, init), AppliedAll(s, TemplatesOf(init)), TemplateOf(u.oc.spec);
      ConvergeAt(RECORD_KEY, up.labels, RecordOf(up).labels, t.labels, k);
      ConvergeAt(RECORD_KEY, ap.labels, RecordOf(ap).labels, t.labels, k);
      ManagedLabelWins(up, u.oc, u.disc, u.cred);
      hide WithMetadata, Converge, ConvergeBut;
    }
  }

  /** Some upsert of the history had a template with the label key. */
  predicate LabelSet(us: seq<Upsert>, k: string) {
    exists i | 0 <= i < |us| :: us[i].oc.spec.template.Some? && k in us[i].oc.spec.template.value.labels
  }

  predicate AnnotationSet(us: seq<Upsert>, k: string) {
    exists i | 0 <= i < |us| :: us[i].oc.spec.template.Some? && k in us[i].oc.spec.template.value.annotations
  }

  lemma EverSet(us: seq<Upsert>, k: string)
    ensures LabelEver(TemplatesOf(us), k) <==> LabelSet(us, k)
    ensures AnnotationEver(TemplatesOf(us), k) <==> AnnotationSet(us, k)
  {
    var ts := TemplatesOf(us);
    forall i | 0 <= i < |us|
      ensures k in ts[i].labels <==> us[i].oc.spec.template.Some? && k in us[i].oc.spec.template.value.labels
      ensures k in ts[i].annotations <==> us[i].oc.spec.template.Some? && k in us[i].oc.spec.template.value.annotations
    {
      assert ts[i] == TemplateOf(us[i].oc.spec);
    }
  }

  /** The history law for whole upserts: whatever specs, discovery documents and credentials came, the
      managed label ends with its fixed value; every other label has the value of the last spec's
      template, or else its initial one, unless the initial record or the template of some spec of the
      history named it, in which case it is gone; and so have the annotations. */
  lemma UpsertHistory(s: Secret, us: seq<Upsert>, k: string)
    requires us != []
    ensures var (out, last) := (UpsertAll(s, us), us[|us| - 1].oc.spec.template);
            && Shows(out, last)
            && (k != "app.kubernetes.io/managed-by" && !(last.Some? && k in last.value.labels) ==>
                  Lookup(out.labels, k) ==
                    if (s.record.Some? && k in s.record.value.labels) || LabelSet(us, k) then None
                      else Lookup(s.labels, k))
            && (!(last.Some? && k in last.value.annotations)
                && k != "tsidp.isvaldi-consulting.github.io/template-keys" ==>
                  Lookup(out.annotations, k) ==
                    if (s.record.Some? && k in s.record.value.annotations) || AnnotationSet(us, k) then None
                    else Lookup(s.annotations, k))
  {
    var u, ts := us[|us| - 1], TemplatesOf(us);
    assert ts[|ts| - 1] == TemplateOf(u.oc.spec);
    WantedShows(UpsertAll(s, us[..|us| - 1]), u.oc, u.disc, u.cred);
    UpsertsApply(s, us, k);
    TemplateHistory(s, ts, k);
    EverSet(us, k);
    hide WithMetadata, Converge, ConvergeBut, LabelEver, AnnotationEver, LabelSet, AnnotationSet, Shows, AppliedAll,
      Wanted;
  }
}
