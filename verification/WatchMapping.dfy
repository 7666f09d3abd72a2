/** Which IronicAPI and IronicConductor CRs are reconciled when a secret or a
    topology changes: a label pass over the namespace, then one index lookup per
    watched field. */
module WatchMapping {
  import opened Wrappers

  datatype Kind = API | Conductor

  datatype Owner = Owner(kind: string, name: string)

  /** The fields of a CR that are looked at. */
  datatype CR = CR(
    name: string, namespace: string, owners: seq<Owner>,
    secret: string, caBundle: string, tlsInternal: Option<string>, tlsPublic: Option<string>,
    transportURLSecret: string, topologyRef: Option<string>, appCredSecret: string)

  datatype Source = Source(name: string, namespace: string, ownerLabel: Option<string>)

  datatype Request = Request(name: string, namespace: string)

  datatype Field = PasswordSecret | CaBundle | TlsInternal | TlsPublic | TransportURL | Topology | AppCred

  function WatchFields(k: Kind): seq<Field> {
    if k == API then [PasswordSecret, CaBundle, TlsInternal, TlsPublic, TransportURL, Topology, AppCred]
    else [PasswordSecret, CaBundle, TransportURL, Topology, AppCred]
  }

  function UnlessEmpty(s: string): seq<string> { if s == "" then [] else [s] }

  function UnlessNone(s: Option<string>): seq<string> { if s.None? then [] else [s.value] }

  /** The keys under which a CR is registered in the index of a field. */
  function IndexKeys(f: Field, cr: CR): seq<string> {
    match f
    case PasswordSecret => UnlessEmpty(cr.secret)
    case CaBundle => UnlessEmpty(cr.caBundle)
    case TlsInternal => UnlessNone(cr.tlsInternal)
    case TlsPublic => UnlessNone(cr.tlsPublic)
    case TransportURL => UnlessEmpty(cr.transportURLSecret)
    case Topology => UnlessNone(cr.topologyRef)
    case AppCred => UnlessEmpty(cr.appCredSecret)
  }

  predicate FirstIronic(owners: seq<Owner>, i: nat)
    requires i < |owners|
  {
    owners[i].kind == "Ironic" && forall j :: 0 <= j < i ==> owners[j].kind != "Ironic"
  }

  /** The first owner that is an Ironic, or the empty name. */
  function OwningIronic(owners: seq<Owner>): (name: string)
    ensures (forall i :: 0 <= i < |owners| ==> owners[i].kind != "Ironic") ==> name == ""
    ensures forall i :: 0 <= i < |owners| && FirstIronic(owners, i) ==> name == owners[i].name
  {
    if owners == [] then "" else if owners[0].kind == "Ironic" then owners[0].name else OwningIronic(owners[1..])
  }

  method GetOwningIronicName(owners: seq<Owner>) returns (name: string)
    ensures name == OwningIronic(owners)
    ensures (forall i :: 0 <= i < |owners| ==> owners[i].kind != "Ironic") ==> name == ""
    ensures forall i :: 0 <= i < |owners| && FirstIronic(owners, i) ==> name == owners[i].name
  {
    for i := 0 to |owners|
      invariant OwningIronic(owners) == OwningIronic(owners[i..])
    {
      if owners[i].kind == "Ironic" { return owners[i].name; }
    }
    name := "";
  }

  function RequestFor(cr: CR): Request { Request(cr.name, cr.namespace) }

  /** Listing a namespace by one index. */
  predicate Listed(cr: CR, f: Field, src: Source) { cr.namespace == src.namespace && src.name in IndexKeys(f, cr) }

  predicate Labelled(cr: CR, src: Source) {
    cr.namespace == src.namespace && src.ownerLabel == Some(OwningIronic(cr.owners))
  }

  method LabelPass(crs: seq<CR>, src: Source) returns (requests: seq<Request>)
    ensures forall q :: q in requests <==> exists cr :: cr in crs && q == RequestFor(cr) && Labelled(cr, src)
  {
    requests := [];
    if src.ownerLabel.None? { return; }
    for i := 0 to |crs|
      invariant forall q :: q in requests <==>
                  exists j :: 0 <= j < i && q == RequestFor(crs[j]) && Labelled(crs[j], src)
    {
      if crs[i].namespace == src.namespace {
        var owner := GetOwningIronicName(crs[i].owners);
        if src.ownerLabel.value == owner { requests := requests + [RequestFor(crs[i])]; }
      }
    }
  }

  method IndexPass(crs: seq<CR>, f: Field, src: Source, before: seq<Request>) returns (requests: seq<Request>)
    ensures forall q :: q in requests <==>
              q in before || exists cr :: cr in crs && q == RequestFor(cr) && Listed(cr, f, src)
  {
    requests := before;
    for i := 0 to |crs|
      invariant forall q :: q in requests <==>
                  q in before || exists j :: 0 <= j < i && q == RequestFor(crs[j]) && Listed(crs[j], f, src)
    {
      if Listed(crs[i], f, src) { requests := requests + [RequestFor(crs[i])]; }
    }
  }

  /** What the first lookups and, unless its list failed, the label pass have found. */
  ghost predicate FoundBy(crs: seq<CR>, fields: seq<Field>, src: Source, labelListed: bool, q: Request) {
    exists cr :: cr in crs && q == RequestFor(cr)
        && ((labelListed && Labelled(cr, src)) || exists f :: f in fields && Listed(cr, f, src))
  }

  /** findObjectsForSrc: a failing first list skips the label pass, a failing
      lookup ends the search; lookups is how many of them succeed. */
  method FindObjectsForSrc(k: Kind, crs: seq<CR>, src: Source, labelListed: bool, lookups: nat)
    returns (requests: seq<Request>)
    requires lookups <= |WatchFields(k)|
    ensures forall q :: q in requests <==> FoundBy(crs, WatchFields(k)[..lookups], src, labelListed, q)
  {
    requests := [];
    if labelListed { requests := LabelPass(crs, src); }
    var fields := WatchFields(k);
    for i := 0 to lookups
      invariant forall q :: q in requests <==> FoundBy(crs, fields[..i], src, labelListed, q)
    {
      forall q: Request { OneMoreField(crs, fields, i, src, labelListed, q); }
      requests := IndexPass(crs, fields[i], src, requests);
    }
  }

  lemma OneMoreField(crs: seq<CR>, fields: seq<Field>, i: nat, src: Source, labelListed: bool, q: Request)
    requires i < |fields|
    ensures FoundBy(crs, fields[..i + 1], src, labelListed, q)
            <==> FoundBy(crs, fields[..i], src, labelListed, q)
                 || exists cr :: cr in crs && q == RequestFor(cr) && Listed(cr, fields[i], src)
  {
    assert forall f :: f in fields[..i + 1] <==> f in fields[..i] || f == fields[i];
    if FoundBy(crs, fields[..i + 1], src, labelListed, q) {
      var cr :| cr in crs && q == RequestFor(cr)
          && ((labelListed && Labelled(cr, src)) || exists f :: f in fields[..i + 1] && Listed(cr, f, src));
      if exists f :: f in fields[..i] && Listed(cr, f, src) { assert FoundBy(crs, fields[..i], src, labelListed, q); }
    }
    if cr :| cr in crs && q == RequestFor(cr) && Listed(cr, fields[i], src) {
      assert fields[i] in fields[..i + 1];
      assert FoundBy(crs, fields[..i + 1], src, labelListed, q);
    }
  }

  // ---------------------------------------------------------------------
  // The full scan

  /** Some watched field of the CR holds the name. */
  predicate Watches(k: Kind, cr: CR, name: string) {
    || cr.secret == name || cr.caBundle == name || cr.transportURLSecret == name || cr.appCredSecret == name
    || cr.topologyRef == Some(name)
    || (k == API && (cr.tlsInternal == Some(name) || cr.tlsPublic == Some(name)))
  }

  lemma IndexedIffWatched(k: Kind, cr: CR, src: Source)
    requires src.name != "" && cr.namespace == src.namespace
    ensures Watches(k, cr, src.name) <==> exists f :: f in WatchFields(k) && Listed(cr, f, src)
  {
    var fields := WatchFields(k);
    if Watches(k, cr, src.name) {
      var f := if cr.secret == src.name then PasswordSecret
               else if cr.caBundle == src.name then CaBundle
               else if cr.transportURLSecret == src.name then TransportURL
               else if cr.appCredSecret == src.name then AppCred
               else if cr.topologyRef == Some(src.name) then Topology
               else if cr.tlsInternal == Some(src.name) then TlsInternal
               else TlsPublic;
      assert Listed(cr, f, src);
      assert fields[0] == PasswordSecret && fields[1] == CaBundle;
      assert k == API ==> fields[2] == TlsInternal && fields[3] == TlsPublic && fields[4] == TransportURL;
      assert k == API ==> fields[5] == Topology && fields[6] == AppCred;
      assert k == Conductor ==> fields[2] == TransportURL && fields[3] == Topology && fields[4] == AppCred;
    }
  }

  /** One of the first n watched fields of the CR holds the name. */
  predicate WatchesFirst(k: Kind, cr: CR, name: string, n: nat) {
    var tls := if k == API then 2 else 0;
    || (n > 0 && cr.secret == name) || (n > 1 && cr.caBundle == name)
    || (k == API && n > 2 && cr.tlsInternal == Some(name)) || (k == API && n > 3 && cr.tlsPublic == Some(name))
    || (n > 2 + tls && cr.transportURLSecret == name) || (n > 3 + tls && cr.topologyRef == Some(name))
    || (n > 4 + tls && cr.appCredSecret == name)
  }

  lemma {:induction false} ListedFirst(k: Kind, cr: CR, src: Source, n: nat)
    requires src.name != "" && cr.namespace == src.namespace && n <= |WatchFields(k)|
    ensures WatchesFirst(k, cr, src.name, n) <==> exists f :: f in WatchFields(k)[..n] && Listed(cr, f, src)
    decreases n
  {
    if n > 0 {
      ListedFirst(k, cr, src, n - 1);
      var fields := WatchFields(k);
      assert forall f :: f in fields[..n] <==> f in fields[..n - 1] || f == fields[n - 1];
      assert WatchesFirst(k, cr, src.name, n) <==>
               WatchesFirst(k, cr, src.name, n - 1) || Listed(cr, fields[n - 1], src);
    }
  }

  /** A search that a failing lookup ends has asked for secret and CA bundle
      first, then, for the API, for the two TLS secrets, and then for transport
      URL, topology and application credential. */
  lemma FoundByFirst(k: Kind, crs: seq<CR>, src: Source, labelListed: bool, lookups: nat, q: Request)
    requires src.name != "" && lookups <= |WatchFields(k)|
    ensures FoundBy(crs, WatchFields(k)[..lookups], src, labelListed, q) <==>
              exists cr :: cr in crs && q.name == cr.name && q.namespace == cr.namespace == src.namespace
                           && ((labelListed && src.ownerLabel == Some(OwningIronic(cr.owners)))
                               || WatchesFirst(k, cr, src.name, lookups))
  {
    forall cr | cr in crs && cr.namespace == src.namespace
      ensures WatchesFirst(k, cr, src.name, lookups)
              <==> exists f :: f in WatchFields(k)[..lookups] && Listed(cr, f, src)
    {
      ListedFirst(k, cr, src, lookups);
    }
  }

  /** When no list fails, exactly those CRs of the namespace are reconciled
      whose owner the label names or one of whose watched fields holds the
      name of the object that changed. */
  lemma MappingIsFullScan(k: Kind, crs: seq<CR>, src: Source, requests: seq<Request>)
    requires src.name != ""
    requires forall q :: q in requests <==> FoundBy(crs, WatchFields(k)[..|WatchFields(k)|], src, true, q)
    ensures forall q :: q in requests <==>
              exists cr :: cr in crs && q.name == cr.name && q.namespace == cr.namespace == src.namespace
                           && (src.ownerLabel == Some(OwningIronic(cr.owners)) || Watches(k, cr, src.name))
  {
    assert WatchFields(k)[..|WatchFields(k)|] == WatchFields(k);
    forall cr | cr in crs && cr.namespace == src.namespace
      ensures Watches(k, cr, src.name) <==> exists f :: f in WatchFields(k) && Listed(cr, f, src)
    {
      IndexedIffWatched(k, cr, src);
    }
  }
}
