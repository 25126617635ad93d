/** Credential resolution and the comma-joined key pools a visitor brings along. */
module Credentials {
  import opened Vocabulary
  import opened Text

  datatype Source = UserKey | TenantKey | GlobalApp | FreeTier

  datatype Credential = Credential(providerName: string, source: Source, secretRef: string, rawKey: Option<string>,
                                   isRateLimited: bool)

  /** The provider name up to its first colon. */
  function Family(name: string): string { Split(name, ':')[0] }

  function Clean(pieces: seq<string>): seq<string> {
    if |pieces| == 0 then [] else CleanPiece(pieces[0]) + Clean(pieces[1..])
  }

  function CleanPiece(piece: string): seq<string> {
    if Trim(piece, PythonSpace) == "" then [] else [Trim(piece, PythonSpace)]
  }

  function SplitKeys(raw: Option<string>): seq<string> {
    if raw == None || raw.value == "" then [] else Clean(Split(raw.value, ','))
  }

  function Mask(secret: string): string {
    if |secret| <= 4 then "****" else "****" + secret[|secret| - 4..]
  }

  function Lookup(metadata: map<string, string>, key: string): Option<string> {
    if key in metadata then Some(metadata[key]) else None
  }

  function Pool(provider: Provider, source: Source, keys: seq<string>): seq<Credential> {
    seq(|keys|, i requires 0 <= i < |keys| =>
      Credential(provider.name, source, Mask(keys[i]), Some(keys[i]), false))
  }

  /** Every usable credential in try-order; None stands for the raised AuthenticationError. */
  function ResolveCandidates(tenant: Tenant, provider: Provider): (r: Option<seq<Credential>>)
    ensures r.Some? ==> |r.value| >= 1
    ensures r == None ==> provider.tier != FREE && !tenant.isZeroSetup
  {
    var family := Family(provider.name);
    var userKeys := SplitKeys(Lookup(tenant.metadata, UserKeyName(family)));
    var tenantKeys := SplitKeys(Lookup(tenant.metadata, "tenant_key:" + family));
    if userKeys != [] then Some(Pool(provider, UserKey, userKeys))
    else if tenantKeys != [] then Some(Pool(provider, TenantKey, tenantKeys))
    else if provider.tier == FREE then Some([Credential(provider.name, FreeTier, "keyless", None, false)])
    else if tenant.isZeroSetup then Some([Credential(provider.name, GlobalApp, "global-app-key", None, true)])
    else None
  }

  function UserKeyName(name: string): string { "user_key:" + name }

  lemma KeyNamesDiffer()
    ensures forall a, b :: UserKeyName(a) == UserKeyName(b) ==> a == b
  {
    forall a, b | UserKeyName(a) == UserKeyName(b) ensures a == b {
      assert a == UserKeyName(a)[9..] == UserKeyName(b)[9..] == b;
    }
  }

  /** Vendor-to-keys mapping, as tenant metadata. */
  function CredentialMetadata(credentials: map<string, seq<string>>): map<string, string> {
    KeyNamesDiffer();
    map name | name in credentials && credentials[name] != [] :: UserKeyName(name) := Join(credentials[name], ",")
  }

  // ---- what is resolved -----------------------------------------------------------------

  /** The family is whatever precedes the first colon. */
  lemma FamilyMeaning(family: string, model: string)
    requires ':' !in family
    ensures Family(family) == family && Family(family + ":" + model) == family
  {
    SplitWithout(family, ':');
    SplitAround(family, model, ':');
  }

  lemma {:induction false} CleanCons(piece: string, pieces: seq<string>)
    ensures Clean([piece] + pieces) == CleanPiece(piece) + Clean(pieces)
  {
    assert ([piece] + pieces)[1..] == pieces;
  }

  lemma {:induction false} CleanAppend(a: seq<string>, b: seq<string>)
    ensures Clean(a + b) == Clean(a) + Clean(b)
  {
    if a == [] {
      assert a + b == b;
    } else {
      var first, rest := a[0], a[1..];
      CleanAppend(rest, b);
      assert a == [first] + rest && a + b == [first] + (rest + b);
      CleanCons(first, rest);
      CleanCons(first, rest + b);
      Associative(CleanPiece(first), Clean(rest), Clean(b));
    }
  }

  ghost predicate Blank(s: string) { forall c :: c in s ==> PythonSpace(c) }

  /** A key as it may be written in a metadata value. */
  ghost predicate Writes(piece: string, key: string) {
    Trimmed(key, PythonSpace) && Surrounded(piece, key, PythonSpace)
  }

  lemma PieceMeaning(piece: string)
    ensures Blank(piece) ==> CleanPiece(piece) == []
    ensures !Blank(piece) ==> exists key :: CleanPiece(piece) == [key] && key != "" && Writes(piece, key)
  {
    TrimIsExact(piece, Trim(piece, PythonSpace), PythonSpace);
    TrimIsBlank(piece, PythonSpace);
    assert Writes(piece, Trim(piece, PythonSpace));
  }

  /** The pieces that are not blank, each without the space around it; `at` says which piece each key is. */
  ghost predicate KeysOf(pieces: seq<string>, keys: seq<string>, at: seq<nat>) {
    && |at| == |keys|
    && (forall k :: 0 <= k < |at| ==> at[k] < |pieces| && keys[k] != "" && Writes(pieces[at[k]], keys[k]))
    && (forall j, k :: 0 <= j < k < |at| ==> at[j] < at[k])
    && (forall i: nat :: i in at <==> i < |pieces| && !Blank(pieces[i]))
  }

  lemma {:induction false} CleanTrace(pieces: seq<string>) returns (at: seq<nat>)
    ensures KeysOf(pieces, Clean(pieces), at)
  {
    if pieces == [] {
      at := [];
    } else {
      var n := |pieces| - 1;
      var before := CleanTrace(pieces[..n]);
      CleanSnoc(pieces[..n], pieces[n]);
      assert pieces == pieces[..n] + [pieces[n]];
      at := PieceTrace(pieces, Clean(pieces[..n]), before);
    }
  }

  lemma PieceTrace(pieces: seq<string>, keys: seq<string>, before: seq<nat>) returns (at: seq<nat>)
    requires pieces != [] && KeysOf(pieces[..|pieces| - 1], keys, before)
    ensures KeysOf(pieces, keys + CleanPiece(pieces[|pieces| - 1]), at)
  {
    var n := |pieces| - 1;
    PieceMeaning(pieces[n]);
    if Blank(pieces[n]) {
      BlankPiece(pieces, keys, before);
      assert keys + [] == keys;
      at := before;
    } else {
      var key :| CleanPiece(pieces[n]) == [key] && key != "" && Writes(pieces[n], key);
      OneMoreKey(pieces, keys, before, key);
      at := before + [n];
    }
  }

  lemma {:induction false} CleanSnoc(pieces: seq<string>, piece: string)
    ensures Clean(pieces + [piece]) == Clean(pieces) + CleanPiece(piece)
  {
    CleanAppend(pieces, [piece]);
    var none: seq<string> := [];
    CleanCons(piece, none);
    assert [piece] + none == [piece];
  }

  lemma BlankPiece(pieces: seq<string>, keys: seq<string>, before: seq<nat>)
    requires pieces != [] && KeysOf(pieces[..|pieces| - 1], keys, before) && Blank(pieces[|pieces| - 1])
    ensures KeysOf(pieces, keys, before)
  {
    forall i: nat ensures i in before <==> i < |pieces| && !Blank(pieces[i]) {
      assert i in before <==> i < |pieces| - 1 && !Blank(pieces[..|pieces| - 1][i]);
    }
  }

  lemma OneMoreKey(pieces: seq<string>, keys: seq<string>, before: seq<nat>, key: string)
    requires pieces != [] && KeysOf(pieces[..|pieces| - 1], keys, before) && !Blank(pieces[|pieces| - 1])
    requires key != "" && Writes(pieces[|pieces| - 1], key)
    ensures KeysOf(pieces, keys + [key], before + [|pieces| - 1])
  {
    var n := |pieces| - 1;
    forall i: nat ensures i in before + [n] <==> i < |pieces| && !Blank(pieces[i]) {
      assert i in before <==> i < n && !Blank(pieces[..n][i]);
    }
  }

  /** The keys in a metadata value: its comma-separated pieces without the space around them, blank ones left out. */
  lemma KeysMeaning(raw: string) returns (pieces: seq<string>, at: seq<nat>)
    ensures pieces != [] && Join(pieces, ",") == raw && forall piece :: piece in pieces ==> ',' !in piece
    ensures KeysOf(pieces, SplitKeys(Some(raw)), at)
  {
    pieces := Split(raw, ',');
    SplitMeaning(raw, ',');
    SplitKeysIsClean(raw);
    at := CleanTrace(pieces);
  }

  /** The credential for a key: audited by the key's last four characters, or by none of four or fewer. */
  ghost predicate StandsFor(credential: Credential, provider: string, source: Source, key: string) {
    && credential.providerName == provider && credential.source == source
    && credential.rawKey == Some(key) && !credential.isRateLimited
    && (if |key| > 4 then credential.secretRef == "****" + key[|key| - 4..] else credential.secretRef == "****")
  }

  ghost predicate StandForAll(credentials: seq<Credential>, provider: string, source: Source, keys: seq<string>) {
    |credentials| == |keys| && forall k :: 0 <= k < |keys| ==> StandsFor(credentials[k], provider, source, keys[k])
  }

  lemma PoolMeaning(provider: Provider, source: Source, keys: seq<string>)
    ensures StandForAll(Pool(provider, source, keys), provider.name, source, keys)
  {}

  /** The precedence, for any provider of a family: the user's own keys, the tenant's, none needed on the free tier,
      the shared key for a zero-setup tenant, and otherwise none at all. */
  lemma ResolveMeaning(tenant: Tenant, provider: Provider, family: string, model: string)
    requires ':' !in family && (provider.name == family || provider.name == family + ":" + model)
    ensures var resolved := ResolveCandidates(tenant, provider);
            var user, shared := "user_key:" + family, "tenant_key:" + family;
            var userKeys := if user in tenant.metadata then SplitKeys(Some(tenant.metadata[user])) else [];
            var tenantKeys := if shared in tenant.metadata then SplitKeys(Some(tenant.metadata[shared])) else [];
            if userKeys != [] then
              resolved.Some? && StandForAll(resolved.value, provider.name, UserKey, userKeys)
            else if tenantKeys != [] then
              resolved.Some? && StandForAll(resolved.value, provider.name, TenantKey, tenantKeys)
            else if provider.tier == 0 then
              resolved == Some([Credential(provider.name, FreeTier, "keyless", None, false)])
            else if tenant.isZeroSetup then
              resolved == Some([Credential(provider.name, GlobalApp, "global-app-key", None, true)])
            else resolved == None
  {
    FamilyMeaning(family, model);
    PoolMeaning(provider, UserKey, SplitKeys(Lookup(tenant.metadata, "user_key:" + family)));
    PoolMeaning(provider, TenantKey, SplitKeys(Lookup(tenant.metadata, "tenant_key:" + family)));
  }

  // ---- round trip -----------------------------------------------------------------------

  /** The keys each entry of a pool stands for on its own. */
  function SplitEach(keys: seq<string>): seq<string> {
    if |keys| == 0 then [] else SplitKeys(Some(keys[0])) + SplitEach(keys[1..])
  }

  lemma {:induction false} SplitKeysIsClean(raw: string)
    ensures SplitKeys(Some(raw)) == Clean(Split(raw, ','))
  {
    if raw == "" { assert Split(raw, ',') == [""] && Trim("", PythonSpace) == ""; }
  }

  /** Splitting a joined pool is splitting each of its keys, whatever the keys contain. */
  lemma {:induction false} SplitOfJoin(keys: seq<string>)
    ensures SplitKeys(Some(Join(keys, ","))) == SplitEach(keys)
  {
    if |keys| == 1 {
      assert SplitEach(keys[1..]) == [];
    } else if |keys| > 1 {
      SplitOfJoin(keys[1..]);
      var rest := Join(keys[1..], ",");
      assert Join(keys, ",") == keys[0] + [','] + rest;
      SplitAround(keys[0], rest, ',');
      CleanAppend(Split(keys[0], ','), Split(rest, ','));
      SplitKeysIsClean(Join(keys, ","));
      SplitKeysIsClean(keys[0]);
      SplitKeysIsClean(rest);
    }
  }

  /** A key that survives pooling: non-empty, comma-free, without outer whitespace. */
  ghost predicate Poolable(key: string) {
    key != "" && ',' !in key && Trimmed(key, PythonSpace)
  }

  ghost predicate AllPoolable(keys: seq<string>) {
    forall i :: 0 <= i < |keys| ==> Poolable(keys[i])
  }

  lemma {:induction false} PoolableComeBack(keys: seq<string>)
    requires AllPoolable(keys)
    ensures SplitEach(keys) == keys
  {
    if keys != [] {
      assert Poolable(keys[0]);
      SplitWithout(keys[0], ',');
      TrimMeaning(keys[0], PythonSpace);
      assert [keys[0]][1..] == [] && Clean([]) == [];
      PoolableComeBack(keys[1..]);
    }
  }

  /** The other direction: only pools of poolable keys come back unchanged. */
  lemma {:induction false} CleanedArePoolable(pieces: seq<string>)
    requires forall piece :: piece in pieces ==> ',' !in piece
    ensures AllPoolable(Clean(pieces))
  {
    if pieces != [] {
      CleanedArePoolable(pieces[1..]);
      TrimMeaning(pieces[0], PythonSpace);
      TrimWithin(pieces[0], PythonSpace);
    }
  }

  lemma {:induction false} TrimWithin(s: string, space: char -> bool)
    ensures forall c :: c in Trim(s, space) ==> c in s
  {
    TrimLeftWithin(s, space);
    TrimRightClean(TrimLeft(s, space), space);
  }

  lemma {:induction false} TrimLeftWithin(s: string, space: char -> bool)
    ensures forall c :: c in TrimLeft(s, space) ==> c in s
  {
    if s != "" && space(s[0]) { TrimLeftWithin(s[1..], space); }
  }

  /** A pool comes back unchanged exactly when each of its keys is poolable. */
  lemma {:induction false} PoolRoundTrip(keys: seq<string>)
    ensures SplitKeys(Some(Join(keys, ","))) == keys <==> AllPoolable(keys)
  {
    SplitOfJoin(keys);
    if AllPoolable(keys) { PoolableComeBack(keys); }
    if SplitKeys(Some(Join(keys, ","))) == keys {
      var raw := Join(keys, ",");
      SplitKeysIsClean(raw);
      SplitMeaning(raw, ',');
      CleanedArePoolable(Split(raw, ','));
    }
  }

  /** Metadata that holds what these pools map to, possibly among other entries. */
  ghost predicate Carries(metadata: map<string, string>, credentials: map<string, seq<string>>) {
    var pooled := CredentialMetadata(credentials);
    forall k :: k in pooled ==> k in metadata && metadata[k] == pooled[k]
  }

  /** Keys a visitor pooled for a vendor reach that vendor's models as USER credentials, in order, whatever
      else the tenant's metadata holds. */
  lemma CarriedKeysResolve(tenant: Tenant, credentials: map<string, seq<string>>, provider: Provider)
    requires Carries(tenant.metadata, credentials) && Family(provider.name) in credentials
    requires SplitEach(credentials[Family(provider.name)]) != []
    ensures ResolveCandidates(tenant, provider)
            == Some(Pool(provider, UserKey, SplitEach(credentials[Family(provider.name)])))
  {
    var family := Family(provider.name);
    KeyNamesDiffer();
    assert UserKeyName(family) in CredentialMetadata(credentials);
    SplitOfJoin(credentials[family]);
  }

  /** The credential of a provider for which the tenant's metadata holds no usable key. */
  function WithoutKeys(tenant: Tenant, provider: Provider): Option<seq<Credential>> {
    if provider.tier == FREE then Some([Credential(provider.name, FreeTier, "keyless", None, false)])
    else if tenant.isZeroSetup then Some([Credential(provider.name, GlobalApp, "global-app-key", None, true)])
    else None
  }

  /** With pooled keys as the only metadata: a vendor left out, or given only blank keys, falls through to the
      keyless precedence; any other resolves to its keys, which come unchanged if they are poolable. */
  lemma BroughtKeysResolve(tenant: Tenant, credentials: map<string, seq<string>>, provider: Provider)
    requires tenant.metadata == CredentialMetadata(credentials)
    ensures var family := Family(provider.name);
            var keys := if family in credentials then SplitEach(credentials[family]) else [];
            && ResolveCandidates(tenant, provider)
               == (if keys != [] then Some(Pool(provider, UserKey, keys)) else WithoutKeys(tenant, provider))
            && (family in credentials && AllPoolable(credentials[family]) ==> keys == credentials[family])
  {
    var family := Family(provider.name);
    var metadata := CredentialMetadata(credentials);
    assert ("tenant_key:" + family)[0] == 't';
    if family in credentials {
      SplitOfJoin(credentials[family]);
      if AllPoolable(credentials[family]) { PoolableComeBack(credentials[family]); }
    }
    if UserKeyName(family) in metadata {
      KeyNamesDiffer();
      var name :| name in credentials && credentials[name] != [] && UserKeyName(name) == UserKeyName(family);
      assert name == family;
    } else if family in credentials {
      assert credentials[family] == [];
    }
  }
}
