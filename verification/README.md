# The tsidp operator as a crash-prone protocol

The operator keeps an OIDCClient object, a credentials Secret and a registration in tsidp in step.
The three cannot be updated together, any call can fail or lose its reply, and the operator can
crash between any two of them. This project models the reconciler, the Kubernetes stores and the
tsidp registry, and proves what the operator's ordering (finalizer, registration, Secret, status)
and its name fingerprint guarantee.

## How the model is laid out

- `Text`, `Types`, `Naming`: strings as Go treats them, the custom resource and its admission rules,
  the fingerprint and the registered name. Lemmas whose names end in `Exact` say what a helper computes
  without naming it: by code points, by positions, or by the parts a string is made of.
- `Tsidp`: the registry behind `/register`, `/clients/` and `/edit`. `Edited` is the effect of an
  edit form, `Server` the fake server's class with its loops.
- `Secrets`: the credentials Secret as a value. `Applied` is applySecretTemplate, `WithMetadata`
  setSecretMetadata, `Wanted` the whole mutation of upsertSecret.
- `SecretObject`: the same mutation as the code does it, changing the fields of an object in place.
- `Cluster`: the machine. `World` holds objects, Secrets, registry and discovery document; `Serve` is
  the effect and the reply of each external call; a `PC` is a point of a reconcile pass with its
  locals; `CallOf` is the next call, `Resume` what the pass makes of the reply, `Dispatch` its first
  decisions; `Action` is a step of some pass with a `Fault`, or something users, administrators or
  tsidp do. `Legal` and `Exec` speak of whole runs.
- `Session`, `Account`, `Reconciler`: the reconciler as methods with loops, early returns and an
  object they change. Every call goes through `Session.Call`, before which anyone else may act and in
  which any fault may happen. The contracts say two things: each method ends exactly where the
  machine stands, so the theorems about runs hold of the methods; and the calls it made, in order and
  with their replies, are those of its account, which also fixes what it made of the object.
- `Requests`: each request of the fake server is the machine's call on the registry.
- `Safety`, `Ownership`, `Credentials`, `StatusLast`, `Stability`: what every run keeps.
- `Readiness`, `Convergence`: what passes achieve in runs that are quiet around their object, while
  others go on elsewhere. `Crowd`: passes of other objects are quiet by themselves.
- `Squatting`, `Deletion`: what a pass does to the whole registry when nothing else happens at all.
- `Drift`: how a pass answers a registration that differs from the spec, for every policy.
- `Lasting`: from Ready to credentials that stay.

Runs have any number of objects whose passes interleave at every call. A call is answered, refused
without effect, or answered with the reply lost after its effect; the operator crashes before or
after the effect; a crash drops the object in memory. Between any two calls users edit admitted
specs, set or drop the force annotation, delete objects, store, change and remove Secrets;
administrators register and edit clients; tsidp loses clients or changes its discovery document. An
update succeeds only if the resourceVersion is unchanged, a create only if the name is absent, a
pinned delete only if the uid matches. The cached read of an upsert may show nothing or any past
version of the Secret.

## Assumptions

- One pass at a time per object, and the object read at the start of a pass is current.
- The effect of a call lands before the call returns, or never.
- tsidp never reuses an id. `/clients/` lists all clients in an arbitrary order. A `/register` reply
  without id or secret is one of the lost replies.
- Nobody but the operator gives a client a name with `[k8s:` that it did not have.
- The first eight characters of the uid separate objects that share namespace and name, and uids are
  unique. Namespaces, names and uids are non-empty and consist of lower-case letters, digits, dashes
  and dots.
- The objects of a run exist from its start; one that is removed stays behind as a tombstone.
- For Ready soundness, the fixpoint and convergence: the passes in question meet no fault, the Secret
  cache shows them the present, and whatever others do leaves alone the object, the discovery
  document, the Secrets under the object's names and the registrations that carry its fingerprint or
  that it names (`Readiness.Spared`). Passes of other objects do so unless they write under the same
  Secret name (`Crowd.StepSpares`).
- For credential pairing: nobody else stores a Secret under an object's controller reference, except
  to change the metadata of one that has it. For credential stability: the conditions of
  `Stability.Calm`.
- The record of template keys is a structured field of the Secret; malformed JSON in the annotation
  reads as no record.
- Lower-casing in `/edit` is exact wherever its result is an ASCII character, which is all its
  prefixes can see.

## Where code and documentation differ

- api/v1alpha1/oidcclient_types.go:63 says the scheme blocklist mirrors `/edit` exactly. It does for
  ASCII URIs. CEL's lowerAscii and Go's ToLower differ on U+0130, so a URI such as `f` U+0130 `le:x` is
  admitted, passes the white-space guard and is rejected by every in-place update
  (`Tsidp.DottedFileScheme`); `Tsidp.AdmittedYetRejected` says for exactly which URIs.
- internal/controller/oidcclient_controller.go:235-240 and 409-411 promise that a squatted Secret
  name is found before anything is destroyed. That holds on rename and on first registration. Where
  an object's own Secret was replaced in place, lines 316-330 burn the registration if the foreign
  Secret does not hold its pair, and lines 350-357 burn it under Recreate if the spec drifted, before
  the Secret's owner is looked at. `Squatting.SquattedName` gives the registry in every case and the
  exact condition under which the registration survives; `Squatting.SquattersBurn` gives a run from
  an untouched cluster for each of the two losses.

## Model

| member | source | states |
|---|---|---|
| Text.SameStrings | internal/controller/oidcclient_controller.go:596-604 | clone, sort, compare is true exactly for equal multisets: duplicates count, order does not; the copy in client.go:225-233 is the same |
| Text.SortedUnique | internal/controller/oidcclient_controller.go:600-603 | a multiset of strings has one sorted listing only, so comparing sorted copies compares multisets |
| Text.SortOfKeys | internal/controller/oidcclient_controller.go:531-546 | in whatever order map keys were appended, the sorted list is the same canonical one |
| Text.LeqDecided | internal/controller/oidcclient_controller.go:596-604 | the order of sorted lists is that of code points: where two strings first differ, the smaller code point comes first |
| Text.SplitJoin | internal/tsidp/client.go:202-205 | the server's split at newlines undoes the client's join when no piece holds a newline |
| Text.TrimExact | internal/tsidp/client.go:195-201 | trimming white space, anything that starts and ends with none, white space gives what is in between; the characters are named by code point |
| Text.TrimParts | internal/tsidp/client.go:195-201 | every string is white space, its trimmed form, white space, and the trimmed form starts and ends with none |
| Text.NormaliseExact | internal/tsidp/client.go:196-201 | normalisation reads a list from the left: each next URI adds what is between its white space, and nothing if it is blank |
| Text.NormaliseClean | internal/tsidp/client.go:196-201 | trimming and dropping blanks leaves a list alone whose URIs are non-empty and free of white space and control characters |
| Types.GuardExact | internal/controller/oidcclient_controller.go:217-223 | a list passes the guard if and only if no code point in it is one of Go's Unicode spaces or controls; anything up to U+0020 or from U+007F to U+00A0 fails it, characters from U+0021 to U+007E pass |
| Types.SchemeExact | api/v1alpha1/oidcclient_types.go:66 | a URI is blocked if and only if it starts, capital ASCII letters read as small ones, with one of the eleven schemes |
| Types.AdmissionExact | api/v1alpha1/oidcclient_types.go:51-67 | what is admitted, said on the raw strings: no marker in the client name, a non-empty list, each URI non-empty, with a colon and without a blocked scheme |
| Naming.FingerprintInjective | internal/controller/oidcclient_controller.go:85-87 | two fingerprints are equal exactly when namespace, name and the first eight uid characters are |
| Naming.DisplayNameClean | internal/controller/oidcclient_controller.go:89-95 | whatever clientName an admitted spec has, its display name is never empty, has no white space at its ends and never contains the marker |
| Naming.DisplayNameExact | internal/controller/oidcclient_controller.go:89-95 | clientName is white space, the display name, white space, whenever it holds anything else; if it holds nothing else, the display name is the object's name |
| Naming.RegisteredNameExact | internal/controller/oidcclient_controller.go:85-99 | the registered name, spelled out: what is between the white space of clientName, or the object's name, then a space and the fingerprint of namespace, name and the first eight characters of the uid |
| Naming.MarkAfterSpace | internal/controller/oidcclient_controller.go:97-99 | no occurrence of the marker begins in the display name or straddles the separating space |
| Naming.FingerprintExact | internal/controller/oidcclient_controller.go:85-99 | the name an admitted object registers under carries another object's fingerprint exactly when the two agree on namespace, name and uid head |
| Naming.MarkExact | internal/controller/oidcclient_controller.go:85-99 | the same on raw fields: one object's registered name carries another's fingerprint exactly when namespace and name are equal and the uids agree, ending included, at each of their first eight positions |
| Naming.UnmarkedCarriesNone | api/v1alpha1/oidcclient_types.go:51-54 | a name without the forbidden marker matches no object's fingerprint |
| Naming.RegisteredNameTrimmed | internal/tsidp/client.go:195 | the registered name is already trimmed, so normalising it changes nothing |
| Tsidp.FormRoundTrip | internal/tsidp/client.go:192-206 | for a guarded URI list the server reads from the form the very list the client had |
| Tsidp.FormExact | internal/tsidp/tsidpfake/fake.go:212-217 | for any newline-free lines, guarded or not, the server reads the normalised list of them |
| Tsidp.RefusedExact | internal/tsidp/tsidpfake/fake.go:182-193 | a URI is rejected if and only if it has no colon or starts, letters folded as Go folds them onto ASCII, with one of the eleven schemes |
| Tsidp.EditedEffect | internal/tsidp/tsidpfake/fake.go:211-237 | without a rejected URI, and with at least one, the client has the name and exactly the listed URIs afterwards; otherwise nothing changes; its secret and all other clients are kept either way |
| Tsidp.EditRoundTrip | internal/tsidp/client.go:192-223 | the same for the whole path from the client's normalisation to the stored client; the name and the multiset of URIs read back are the wanted ones exactly when every URI is accepted or they were so before |
| Tsidp.BlockedIsRejected | api/v1alpha1/oidcclient_types.go:63-66 | over all strings, what the CRD blocks `/edit` rejects |
| Tsidp.AdmittedYetRejected | api/v1alpha1/oidcclient_types.go:63-67 | an admitted URI is rejected by `/edit` if and only if the CRD would block it with each U+0130 written as i |
| Tsidp.AsciiAdmissionExact | internal/tsidp/tsidpfake/fake.go:180-193 | on ASCII URIs the CRD admits exactly what `/edit` lets through |
| Tsidp.DottedFileScheme | api/v1alpha1/oidcclient_types.go:63-67 | an admitted, guarded URI that `/edit` rejects |
| Tsidp.FakeIDInjective | internal/tsidp/tsidpfake/fake.go:106-110 | two counter values never give the same client id |
| Tsidp.FakeForm | internal/tsidp/tsidpfake/fake.go:106-110 | what issued ids and secrets look like, for counters of one to three digits |
| Tsidp.Server.constructor | internal/tsidp/tsidpfake/fake.go:40-45 | a new server has no clients |
| Tsidp.Server.Register | internal/tsidp/tsidpfake/fake.go:89-120 | without URIs nothing changes; otherwise exactly one client is added under an id no client has, and the reply carries its secret |
| Tsidp.Server.List | internal/tsidp/tsidpfake/fake.go:133-148 | every client exactly once, in any order, with an empty secret and the stored name and URIs |
| Tsidp.Server.Get | internal/tsidp/tsidpfake/fake.go:150-163 | the client with an empty secret and the stored name and URIs, or not found |
| Tsidp.Server.Delete | internal/tsidp/tsidpfake/fake.go:164-172 | the client and nothing else is gone; not found exactly when there was none |
| Tsidp.Server.Edit | internal/tsidp/tsidpfake/fake.go:195-238 | the client gets the trimmed name and the URIs of the form if there is one and every one is accepted; otherwise the registry stays as it is, and the response is the same |
| Secrets.RecordExact | internal/controller/oidcclient_controller.go:531-555 | the record lists exactly the current template's keys in ascending order and is absent exactly when the template is empty |
| Secrets.TemplateHistory | internal/controller/oidcclient_controller.go:508-556 | after any non-empty history of templates a key has the last template's value, or its initial value if neither the initial record nor any template ever named it, or is gone |
| Secrets.ManagedLabelWins | internal/controller/oidcclient_controller.go:486-492 | an upsert ends with the managed label at its fixed value and leaves the rest of the metadata as the template step does |
| Secrets.WantedShows | internal/controller/oidcclient_controller.go:486-556 | after an upsert every label and annotation of the spec's template is there but the two reserved ones, and the record lists exactly its keys; without a template there is no record |
| Secrets.UpsertHistory | internal/controller/oidcclient_controller.go:478-497 | the history law for whole upserts with any specs, discovery documents and credentials, in terms of the template each spec has: the last one's labels and annotations are there and exactly recorded, a key that an earlier one or the initial record named is gone, any other is as it was, and the managed label is fixed throughout |
| Secrets.MetadataContents | internal/controller/oidcclient_controller.go:558-571 | the metadata keys hold what discovery and spec say and never touch client_id or client_secret |
| Secrets.MetadataPublished | internal/controller/oidcclient_controller.go:558-571 | said on raw fields: each endpoint is that of the discovery document, the discovery endpoint is the issuer without one trailing slash and the well-known path, and splitting redirect_uris at newlines gives the spec's list if that is newline-free |
| Secrets.WantedIdempotent | internal/controller/oidcclient_controller.go:478-497 | template, label, metadata and owner steps compose to an idempotent map: upserting an upserted Secret changes nothing |
| SecretObject.DropRecorded | internal/controller/oidcclient_controller.go:521-530 | the loop deletes exactly the recorded keys the template no longer has |
| SecretObject.SetEntries | internal/controller/oidcclient_controller.go:531-546 | whatever the iteration order, the map gains exactly the entries and the key list is canonical |
| SecretObject.SecretObject.ConvergeLabels | internal/controller/oidcclient_controller.go:521-537 | the labels in place become the converged labels |
| SecretObject.SecretObject.ConvergeAnnotations | internal/controller/oidcclient_controller.go:526-544 | the annotations in place become the converged annotations, the record's own key excepted |
| SecretObject.SecretObject.ApplyTemplate | internal/controller/oidcclient_controller.go:508-556 | the in-place template step has the effect the history law is about |
| SecretObject.SecretObject.SetMetadata | internal/controller/oidcclient_controller.go:558-571 | afterwards the data publish the discovery document and the redirect URIs key by key, client_id and client_secret are untouched, and nothing but the data changed |
| SecretObject.SecretObject.Mutate | internal/controller/oidcclient_controller.go:480-495 | the in-place mutation has the effect the idempotence law is about: the object shows the spec's template and publishes discovery document and redirect URIs |
| Cluster.MatchesMine | internal/controller/oidcclient_controller.go:422-425 | scanning a complete listing for the fingerprint finds exactly the live registrations carrying it, in whatever order it comes |
| Cluster.SecretOnlyOnce | internal/tsidp/tsidpfake/fake.go:133-163 | no reply to any call but a registration carries a client's secret |
| Cluster.GuardStops | internal/controller/oidcclient_controller.go:217-223 | a URI with a white space or control code point anywhere: the pass over a live object with its finalizer is the status write of SpecInvalid and no other call |
| Cluster.PostedNames | internal/controller/oidcclient_controller.go:333-336 | the name that a registration posts and that an edit sends, spelled out from clientName and identity |
| Cluster.FaultMeans | internal/controller/oidcclient_controller.go:120-150 | a call refused or crashed before has no effect, one whose reply is lost or crashed after has it; the pass sees a failure, or is over; no other pass moves |
| Cluster.CacheMayLag | internal/controller/oidcclient_controller.go:478-486 | the cached read may show nothing, or any version that was ever stored under the key |
| Safety.NameExclusive | internal/controller/oidcclient_controller.go:84-99 | no other object of a run can recognise the name an object registers under |
| Safety.StepOk | internal/controller/oidcclient_controller.go:120-476 | the invariant of object, registry and pass holds after the effect of every single call, whether or not its reply arrives |
| Safety.RunOk | internal/controller/oidcclient_controller.go:120-476 | the invariant holds throughout every run, with every interleaving, fault and disturbance |
| Safety.AtMostOneRegistration | internal/controller/oidcclient_controller.go:271-303 | at every moment an object has at most one live registration with its fingerprint, and a persisted client id names every such registration |
| Safety.NoLeak | internal/controller/oidcclient_controller.go:132-204 | a registration exists only while its object has the finalizer or is gone; an object gone under Deregister without force has none, recorded or not |
| Ownership.WantedInherits | internal/controller/oidcclient_controller.go:459-471 | an upsert writes the new credentials or those of the version it read, never a mixture, and always takes ownership |
| Ownership.Run2 | internal/controller/oidcclient_controller.go:379-401 | throughout every run a pass holds only Secrets it read as owned, and writes only what it made of them or of nothing |
| Ownership.CallConfined | internal/controller/oidcclient_controller.go:241-269 | the effect of any call of a pass touches registrations issued for its object, Secrets owned by it at that moment, new names, and a deleted Secret only if it has the very uid that this pass read there as owned |
| Ownership.NonInterference | internal/controller/oidcclient_controller.go:241-269 | the same for every step in every run and interleaving; registrations with another object's fingerprint stay exactly as they are |
| Credentials.NewCredentialsWritten | internal/controller/oidcclient_controller.go:459-471 | with new credentials the write is never skipped, whatever version the cache showed |
| Credentials.CredentialPairing | internal/controller/oidcclient_controller.go:443-471 | over whole runs an owned Secret naming a client holds exactly the secret tsidp issued for it, and a client that a persisted status names had its pair in an owned Secret |
| StatusLast.StatusAfterSecret | internal/controller/oidcclient_controller.go:408-476 | a status is persisted with a newly registered or adopted client only by the object's own pass, and only after the Secret under the very name that pass wants was stored, owned, with that client's pair |
| Credentials.UnrecoverableBurned | internal/controller/oidcclient_controller.go:429-440 | a registration whose secret never reached a Secret is never recorded or adopted, and is burned where the pass meets it |
| Stability.CredentialStability | internal/controller/oidcclient_controller.go:297-359 | once, at any point of any run, the owned Secret holds the live registration's pair, under InPlace or Block client id and secret stay the same through every continuation of spec edits, faults and crashes, recovery by adoption included |
| Lasting.SettledKeepsCredentials | internal/controller/oidcclient_controller.go:297-371 | an object that is settled (object, Secret and registration in sync) at any moment of any gentle run keeps its client id and secret, in tsidp and in the Secret, through every continuation under InPlace or Block in which nobody else touches the Secret and tsidp keeps the client |
| Lasting.ReadyKeepsCredentials | internal/controller/oidcclient_controller.go:281-371 | the pair that a pass left when it reached markReady, at any point of any gentle run, stays the same through every such continuation |
| Readiness.InSyncContents | internal/controller/oidcclient_controller.go:361-371 | what in sync means on raw fields: the registration has the registered name and the spec's multiset of URIs; the Secret is under the wanted name, owned, with usable credentials, current endpoints and URIs, the fixed label and the template with its exact record; the status says so |
| Readiness.SoundStep | internal/controller/oidcclient_controller.go:206-372 | what each undisturbed call leaves true of stores and locals, up to markReady |
| Readiness.ReadySoundness | internal/controller/oidcclient_controller.go:281-371 | a pass without fault that reaches markReady, from any state, just after registering included, and while others go on elsewhere, leaves all that in place, name and multiset of URIs in tsidp included |
| Readiness.ReadyFixpoint | internal/controller/oidcclient_controller.go:333-371 | in every run quiet around a settled object, no step of its passes changes a registration or a Secret, every pass that ended came to Ready again, and the object stays settled |
| Readiness.SettledPromised | internal/controller/oidcclient_controller.go:361-371 | what settled means, on the same raw fields |
| Drift.DriftAnswered | internal/controller/oidcclient_controller.go:310-372 | an undisturbed pass over an object with an admitted, guarded spec whose recorded client is live and whose Secret holds its pair: with the name and multiset of URIs the spec wants, tsidp is left as it is; with others, Recreate deletes that one client and forgets it, InPlace gives it the wanted name and URIs with its secret kept or, where a URI is refused, changes nothing and reports, Block changes nothing and reports |
| Convergence.PassEnds | internal/controller/oidcclient_controller.go:120-204 | whatever a call answers, the pass is strictly nearer its end: every pass ends |
| Convergence.BurntClaim | internal/controller/oidcclient_controller.go:322-330 | burning a recorded or matching registration lowers the measure |
| Convergence.EditConverges | internal/tsidp/client.go:192-223 | an in-place update with accepted URIs passes its own verification |
| Convergence.AsciiEditable | api/v1alpha1/oidcclient_types.go:63-68 | no admitted ASCII spec can wedge an in-place update |
| Convergence.OnePass | internal/controller/oidcclient_controller.go:206-372 | one quiet pass over a healthy object settles it or lowers the measure and asks for a requeue soon; it never backs off |
| Convergence.BoundedConvergence | internal/controller/oidcclient_controller.go:206-372 | from any state, in every run quiet around a healthy object, one pass more than matching and recorded registrations together makes it settled and keeps it so |
| Convergence.ReachableMeasure | internal/controller/oidcclient_controller.go:408-476 | in every state a run reaches that number is at most one |
| Convergence.TwoPassesSuffice | internal/controller/oidcclient_controller.go:206-372 | so two passes suffice from every state reached under faults, for every admitted ASCII spec with policy Recreate or InPlace and a Secret name absent or owned |
| Convergence.PassExists | internal/controller/oidcclient_controller.go:120-150 | an undisturbed pass is possible wherever a pass may begin |
| Convergence.PassesExist | internal/controller/oidcclient_controller.go:120-150 | over a healthy object quiet runs with any number of passes are possible, so the bounds are not vacuous |
| Crowd.StepSpares | internal/controller/oidcclient_controller.go:241-269 | in every reachable state a step of another object's pass, with any fault, leaves alone all that a pass is concerned with, if it does not write under its Secret names |
| Crowd.CrowdConverges | internal/controller/oidcclient_controller.go:206-372 | two passes suffice while the passes of all other objects go on in any interleaving, with any faults, under other Secret names |
| Squatting.SquattedName | internal/controller/oidcclient_controller.go:217-372 | a foreign Secret under the wanted name, whatever it holds, is never touched; a live recorded registration survives the pass if and only if the spec fails the guard, a rename is due, or the foreign Secret holds its pair and there is no drift or a policy other than Recreate; what the registry becomes is stated for every case |
| Squatting.ReplacedInPlace | internal/controller/oidcclient_controller.go:316-330 | from every settled object: its Secret replaced by a foreign one without the pair, the next pass burns the live registration |
| Squatting.DriftBehindSquatter | internal/controller/oidcclient_controller.go:336-357 | from every settled object: its Secret disowned but the pair kept, the spec changed under Recreate, the next pass burns the live registration |
| Squatting.SquattersBurn | internal/controller/oidcclient_controller.go:316-357 | both losses happen in runs from an untouched cluster |
| Deletion.DeletionCompletes | internal/controller/oidcclient_controller.go:152-204 | one undisturbed pass over a deleted object lets it go, deregisters exactly what the policy says and leaves every Secret alone |
| Session.Session.constructor | internal/controller/oidcclient_controller.go:62-73 | a session starts as the empty run |
| Session.Session.Begin | internal/controller/oidcclient_controller.go:120-126 | the object found is the stored one and its pass begins; not found, the object is not there and nothing of its pass changed |
| Session.Session.Call | internal/controller/oidcclient_controller.go:120-476 | one external call is one step of the machine and one entry of the log, whatever others did before it and whichever fault befell it; a registration answered carries id and secret |
| Session.Session.Safe | internal/controller/oidcclient_controller.go:120-476 | what a session did is a run, so the invariant of all runs holds |
| Requests.Register | internal/tsidp/tsidpfake/fake.go:89-120 | the request is the machine's registration under an allowed choice, or its refusal; an id ever issued is never issued again |
| Requests.List | internal/tsidp/tsidpfake/fake.go:133-148 | the request is the machine's listing in some order |
| Requests.Get | internal/tsidp/tsidpfake/fake.go:150-163 | the request is the machine's read |
| Requests.Delete | internal/tsidp/tsidpfake/fake.go:164-172 | the request is the machine's delete |
| Requests.Edit | internal/tsidp/tsidpfake/fake.go:195-238 | the request is the machine's edit, with a response that tells found from not found only |
| Reconciler.Reconciler.NotReady | internal/controller/oidcclient_controller.go:581-584 | Ready is False with the reason, nothing else of the object changed, and the pass backs off |
| Reconciler.Reconciler.CleanURIs | internal/controller/oidcclient_controller.go:217-223 | the guard accepts exactly the lists without white space and control characters, by code point |
| Reconciler.Reconciler.SecretAdoptable | internal/controller/oidcclient_controller.go:383-401 | one read, and absent, owned, foreign and unreadable told apart by its reply |
| Reconciler.Reconciler.WriteSecret | internal/controller/oidcclient_controller.go:478-497 | the mutated Secret is created, updated, or left when nothing differs; success exactly when the one write went through |
| Reconciler.Reconciler.UpsertSecret | internal/controller/oidcclient_controller.go:478-497 | success exactly when the cached read was followed by the create, the update or the skip it calls for; a foreign Secret is refused without a write |
| Reconciler.Reconciler.Register | internal/controller/oidcclient_controller.go:443-475 | the object names the client exactly when the Secret with its pair was written after the registration |
| Reconciler.Reconciler.Enroll | internal/controller/oidcclient_controller.go:459-475 | the object gets the id and the Secret's name if and only if the upsert of the new pair went through |
| Reconciler.Reconciler.Adopt | internal/controller/oidcclient_controller.go:422-443 | the first match of the listing decides: adopted without a call if the Secret holds its pair, burned by one delete if not; only without any match is a client registered |
| Reconciler.Reconciler.ListAndAdopt | internal/controller/oidcclient_controller.go:417-443 | the listing comes from tsidp directly; unreadable, nothing is registered |
| Reconciler.Reconciler.RegisterOrAdopt | internal/controller/oidcclient_controller.go:408-476 | the first call reads the Secret; a foreign or unreadable one ends it there, before tsidp is as much as asked |
| Reconciler.Reconciler.NormaliseURIs | internal/tsidp/client.go:196-201 | every URI trimmed, the empty ones dropped |
| Reconciler.Reconciler.UpdateClient | internal/tsidp/client.go:192-223 | success exactly when the edit was answered and the client read back has the normalised name and the same multiset of URIs |
| Reconciler.Reconciler.RemoveOldSecret | internal/controller/oidcclient_controller.go:253-268 | the status forgets the old name exactly when the old Secret was absent, foreign and left alone, or owned and deleted by the uid just read |
| Reconciler.Reconciler.RenameSecret | internal/controller/oidcclient_controller.go:241-269 | the first call reads the new name; a foreign or unreadable Secret there ends it with the old one untouched |
| Reconciler.Reconciler.BurnRecorded | internal/controller/oidcclient_controller.go:326-330 | one delete; the id is dropped exactly when it was confirmed |
| Reconciler.Reconciler.Finish | internal/controller/oidcclient_controller.go:361-371 | Ready exactly when the metadata upsert went through |
| Reconciler.Reconciler.KeepRegistration | internal/controller/oidcclient_controller.go:297-308 | a lost registration is forgotten, an unreadable one kept, a present one checked |
| Reconciler.Reconciler.CheckRegistration | internal/controller/oidcclient_controller.go:316-359 | credentials first, read past the cache, then drift; without either the registration is kept as it is |
| Reconciler.Reconciler.AnswerDrift | internal/controller/oidcclient_controller.go:336-359 | InPlace edits and verifies, Block reports and calls nothing, Recreate burns |
| Reconciler.Reconciler.Establish | internal/controller/oidcclient_controller.go:271-308 | a recorded client is checked, otherwise one is claimed; adopted is checked too, new is Ready, burned is requeued, failed is reported |
| Reconciler.Reconciler.SettleName | internal/controller/oidcclient_controller.go:241-295 | a due rename comes first and its refusal ends the pass |
| Reconciler.Reconciler.ReconcileNormal | internal/controller/oidcclient_controller.go:206-372 | the guard comes before any call, discovery before any other call, and the rest follows their outcome |
| Reconciler.Reconciler.StatusAfter | internal/controller/oidcclient_controller.go:139-149 | the status is written by the last call; its conflict requeues, its failure is an error |
| Reconciler.Reconciler.ReconcileLive | internal/controller/oidcclient_controller.go:132-150 | without a finalizer the first call persists it |
| Reconciler.Reconciler.DeleteListed | internal/controller/oidcclient_controller.go:184-196 | every match of the listing was deleted in order, or the loop stopped at the first failure |
| Reconciler.Reconciler.DeleteMatches | internal/controller/oidcclient_controller.go:177-196 | success exactly after a complete listing and the deletion of all its matches |
| Reconciler.Reconciler.Deregister | internal/controller/oidcclient_controller.go:157-198 | what has to be deleted by policy, force and record was deleted, and the finalizer was not touched meanwhile |
| Reconciler.Reconciler.ReconcileDelete | internal/controller/oidcclient_controller.go:152-204 | the finalizer goes by the last call, and only after deregistration |
| Reconciler.Reconciler.Reconcile | internal/controller/oidcclient_controller.go:120-150 | a reconcile request prolongs the run by exactly one whole pass with its outcome, or by none where the object is not there, and the invariant of all runs holds after it |

## Left out

- HTTP, JSON, percent-encoding, status codes beyond found, not found and failed, and timeouts.
- Effects that land after a client timeout, and stale reads of the custom resource: excluded by assumption.
- Events, logging, condition messages and timestamps, observedGeneration.
- Requeue delays: an outcome says soon, back off or resync.
- Registration metadata other than name and redirect URIs: tsidp's reads do not show it.
- Creation of objects during a run, and reuse of a name by a new object while the run goes on.
- Snapshot and Seed of the fake, its discovery and routing handlers, and interleavings inside one request.
- Token handling and the HTML pages of the real tsidp, which are not part of this model.
- cmd/main.go, the Helm chart, generated code and scripts.
- Squatting.SquattedName: states the whole registry afterwards, so nothing but the pass itself may happen meanwhile.
- Deletion.DeletionCompletes: the same.
- Drift.DriftAnswered: the same.
- Length and count limits of the CRD: the theorems hold without them.
- SecretObject.SecretObject.ApplyTemplate: nil maps are empty maps, and a record annotation that is malformed JSON is an absent record.
- Credentials.CredentialPairing: says that an owned Secret held the pair, not that it still does, because users may delete the Secret at any time; StatusLast.StatusAfterSecret names the Secret.
