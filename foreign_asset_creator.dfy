/**
 * pallet-foreign-asset-creator: two storage maps, AssetIdToForeignAsset and
 * ForeignAssetToAssetId, changed in place by four privileged calls, and the
 * MaybeEquivalence conversions that read them. Nothing in the pallet keeps the
 * two maps inverse to each other; the lemmas below say when each call keeps
 * that relation and when it breaks it.
 */
module ForeignAssetCreator {

  datatype Option<T> = None | Some(value: T)

  datatype Origin = Root | Signed(account: nat) | Unsigned

  /** Outcome of a call into the Fungibles implementation (create, start_destroy). */
  datatype External = Done | Failed(code: nat)

  datatype Error = BadOrigin | AssetAlreadyExists | AssetDoesNotExist | FungiblesError(code: nat)

  datatype DispatchResult = Ok | Err(error: Error)

  datatype Event<A, F> =
    | ForeignAssetCreated(assetId: A, foreignAsset: F)
    | ForeignAssetTypeChanged(assetId: A, newForeignAsset: F)
    | ForeignAssetRemoved(assetId: A, foreignAsset: F)
    | ForeignAssetDestroyed(assetId: A, foreignAsset: F)

  /** The two storage maps as one value. */
  datatype Storage<A, F> = Storage(assetIdToForeignAsset: map<A, F>, foreignAssetToAssetId: map<F, A>)

  /** The maps are mutual inverses: each entry of either one is mirrored in the other. */
  predicate MutualInverse<A, F>(s: Storage<A, F>)
  {
    && (forall id | id in s.assetIdToForeignAsset ::
          s.assetIdToForeignAsset[id] in s.foreignAssetToAssetId
          && s.foreignAssetToAssetId[s.assetIdToForeignAsset[id]] == id)
    && (forall fa | fa in s.foreignAssetToAssetId ::
          s.foreignAssetToAssetId[fa] in s.assetIdToForeignAsset
          && s.assetIdToForeignAsset[s.foreignAssetToAssetId[fa]] == fa)
  }

  /** convert: the asset id registered for a foreign asset. */
  function Convert<A, F>(s: Storage<A, F>, foreignAsset: F): Option<A>
  {
    if foreignAsset in s.foreignAssetToAssetId then Some(s.foreignAssetToAssetId[foreignAsset]) else None
  }

  /** convert_back: the foreign asset registered for an asset id. */
  function ConvertBack<A, F>(s: Storage<A, F>, assetId: A): Option<F>
  {
    if assetId in s.assetIdToForeignAsset then Some(s.assetIdToForeignAsset[assetId]) else None
  }

  /** The storage effect of a successful create_foreign_asset. */
  function Created<A, F>(s: Storage<A, F>, assetId: A, foreignAsset: F): Storage<A, F>
  {
    Storage(s.assetIdToForeignAsset[assetId := foreignAsset],
            s.foreignAssetToAssetId[foreignAsset := assetId])
  }

  /**
   * The storage effect of a successful change_existing_asset_type, in statement
   * order: write both new entries, then remove the previous reverse entry.
   */
  function Changed<A, F>(s: Storage<A, F>, assetId: A, newForeignAsset: F): Storage<A, F>
    requires assetId in s.assetIdToForeignAsset
  {
    var previous := s.assetIdToForeignAsset[assetId];
    Storage(s.assetIdToForeignAsset[assetId := newForeignAsset],
            s.foreignAssetToAssetId[newForeignAsset := assetId] - {previous})
  }

  /** The change as evidently intended: drop the previous reverse entry, then write the new one. */
  function ChangedFixed<A, F>(s: Storage<A, F>, assetId: A, newForeignAsset: F): Storage<A, F>
    requires assetId in s.assetIdToForeignAsset
  {
    var previous := s.assetIdToForeignAsset[assetId];
    Storage(s.assetIdToForeignAsset[assetId := newForeignAsset],
            (s.foreignAssetToAssetId - {previous})[newForeignAsset := assetId])
  }

  /** The storage effect of a successful remove_existing_asset_type or destroy_foreign_asset. */
  function Removed<A, F>(s: Storage<A, F>, assetId: A): Storage<A, F>
    requires assetId in s.assetIdToForeignAsset
  {
    Storage(s.assetIdToForeignAsset - {assetId},
            s.foreignAssetToAssetId - {s.assetIdToForeignAsset[assetId]})
  }

  /** Under the inverse relation convert and convert_back undo each other. */
  lemma ConvertRoundTrip<A, F>(s: Storage<A, F>, assetId: A, foreignAsset: F)
    requires MutualInverse(s)
    ensures ConvertBack(s, assetId) == Some(foreignAsset) <==> Convert(s, foreignAsset) == Some(assetId)
  {
  }

  /**
   * After a create both conversions find the new pair, whatever was stored before,
   * and every other asset id keeps its foreign asset.
   */
  lemma CreatedConverts<A, F>(s: Storage<A, F>, assetId: A, foreignAsset: F, other: A)
    ensures Convert(Created(s, assetId, foreignAsset), foreignAsset) == Some(assetId)
    ensures ConvertBack(Created(s, assetId, foreignAsset), assetId) == Some(foreignAsset)
    ensures other != assetId ==> ConvertBack(Created(s, assetId, foreignAsset), other) == ConvertBack(s, other)
  {
  }

  /**
   * A create on a fresh asset id keeps the maps inverse exactly when the foreign
   * asset is not registered yet: create_foreign_asset checks only the asset id.
   */
  lemma CreatePreservesInverseIff<A, F>(s: Storage<A, F>, assetId: A, foreignAsset: F)
    requires MutualInverse(s) && assetId !in s.assetIdToForeignAsset
    ensures MutualInverse(Created(s, assetId, foreignAsset)) <==> foreignAsset !in s.foreignAssetToAssetId
  {
    var t := Created(s, assetId, foreignAsset);
    if foreignAsset in s.foreignAssetToAssetId {
      var holder := s.foreignAssetToAssetId[foreignAsset];
      assert holder in s.assetIdToForeignAsset && holder != assetId;
      assert t.assetIdToForeignAsset[holder] == foreignAsset;
      assert t.foreignAssetToAssetId[foreignAsset] == assetId;
    } else {
      forall id | id in t.assetIdToForeignAsset
        ensures t.assetIdToForeignAsset[id] in t.foreignAssetToAssetId
        ensures t.foreignAssetToAssetId[t.assetIdToForeignAsset[id]] == id
      {
        if id != assetId {
          assert s.assetIdToForeignAsset[id] != foreignAsset;
        }
      }
    }
  }

  /**
   * A change keeps the maps inverse exactly when the new foreign asset is not
   * registered yet. In particular a change to the foreign asset the id already has
   * breaks it, because the reverse entry just written is then removed.
   */
  lemma ChangePreservesInverseIff<A, F>(s: Storage<A, F>, assetId: A, newForeignAsset: F)
    requires MutualInverse(s) && assetId in s.assetIdToForeignAsset
    ensures MutualInverse(Changed(s, assetId, newForeignAsset)) <==> newForeignAsset !in s.foreignAssetToAssetId
  {
    var t := Changed(s, assetId, newForeignAsset);
    var previous := s.assetIdToForeignAsset[assetId];
    if newForeignAsset in s.foreignAssetToAssetId {
      if newForeignAsset == previous {
        assert t.assetIdToForeignAsset[assetId] == newForeignAsset;
        assert newForeignAsset !in t.foreignAssetToAssetId;
      } else {
        var holder := s.foreignAssetToAssetId[newForeignAsset];
        assert holder != assetId;
        assert t.assetIdToForeignAsset[holder] == newForeignAsset;
        assert t.foreignAssetToAssetId[newForeignAsset] == assetId;
      }
    } else {
      forall id | id in t.assetIdToForeignAsset
        ensures t.assetIdToForeignAsset[id] in t.foreignAssetToAssetId
        ensures t.foreignAssetToAssetId[t.assetIdToForeignAsset[id]] == id
      {
        if id != assetId {
          assert s.assetIdToForeignAsset[id] != previous;
          assert s.assetIdToForeignAsset[id] != newForeignAsset;
        }
      }
      forall fa | fa in t.foreignAssetToAssetId
        ensures t.foreignAssetToAssetId[fa] in t.assetIdToForeignAsset
        ensures t.assetIdToForeignAsset[t.foreignAssetToAssetId[fa]] == fa
      {
        if fa != newForeignAsset {
          assert s.foreignAssetToAssetId[fa] != assetId;
        }
      }
    }
  }

  /**
   * The change as written, on the foreign asset an id already has: convert_back
   * still finds it but convert no longer does.
   */
  lemma ChangeToSameForeignAssetDropsReverse<A, F>(s: Storage<A, F>, assetId: A)
    requires assetId in s.assetIdToForeignAsset
    ensures var fa := s.assetIdToForeignAsset[assetId];
            && ConvertBack(Changed(s, assetId, fa), assetId) == Some(fa)
            && Convert(Changed(s, assetId, fa), fa) == None
  {
  }

  /** The corrected change keeps the maps inverse whenever the new foreign asset is free or already the id's own. */
  lemma ChangedFixedPreservesInverseIff<A, F>(s: Storage<A, F>, assetId: A, newForeignAsset: F)
    requires MutualInverse(s) && assetId in s.assetIdToForeignAsset
    ensures MutualInverse(ChangedFixed(s, assetId, newForeignAsset))
            <==> newForeignAsset !in s.foreignAssetToAssetId || newForeignAsset == s.assetIdToForeignAsset[assetId]
  {
    var t := ChangedFixed(s, assetId, newForeignAsset);
    var previous := s.assetIdToForeignAsset[assetId];
    if newForeignAsset in s.foreignAssetToAssetId && newForeignAsset != previous {
      var holder := s.foreignAssetToAssetId[newForeignAsset];
      assert holder != assetId;
      assert t.assetIdToForeignAsset[holder] == newForeignAsset;
      assert t.foreignAssetToAssetId[newForeignAsset] == assetId;
    } else {
      forall id | id in t.assetIdToForeignAsset
        ensures t.assetIdToForeignAsset[id] in t.foreignAssetToAssetId
        ensures t.foreignAssetToAssetId[t.assetIdToForeignAsset[id]] == id
      {
        if id != assetId {
          assert s.assetIdToForeignAsset[id] != previous;
          assert s.assetIdToForeignAsset[id] != newForeignAsset;
        }
      }
      forall fa | fa in t.foreignAssetToAssetId
        ensures t.foreignAssetToAssetId[fa] in t.assetIdToForeignAsset
        ensures t.assetIdToForeignAsset[t.foreignAssetToAssetId[fa]] == fa
      {
        if fa != newForeignAsset {
          assert s.foreignAssetToAssetId[fa] != assetId;
        }
      }
    }
  }

  /** A remove keeps the maps inverse, and afterwards neither conversion finds the pair. */
  lemma RemovePreservesInverse<A, F>(s: Storage<A, F>, assetId: A)
    requires assetId in s.assetIdToForeignAsset
    ensures ConvertBack(Removed(s, assetId), assetId) == None
    ensures Convert(Removed(s, assetId), s.assetIdToForeignAsset[assetId]) == None
    ensures MutualInverse(s) ==> MutualInverse(Removed(s, assetId))
  {
    if MutualInverse(s) {
      var t := Removed(s, assetId);
      var fa := s.assetIdToForeignAsset[assetId];
      forall id | id in t.assetIdToForeignAsset
        ensures t.assetIdToForeignAsset[id] in t.foreignAssetToAssetId
        ensures t.foreignAssetToAssetId[t.assetIdToForeignAsset[id]] == id
      {
        assert s.assetIdToForeignAsset[id] != fa;
      }
    }
  }

  class Pallet<A(==), F(==)> {
    /** ForeignAssetCreatorOrigin, ForeignAssetModifierOrigin, ForeignAssetDestroyerOrigin. */
    const creatorOrigin: Origin -> bool
    const modifierOrigin: Origin -> bool
    const destroyerOrigin: Origin -> bool

    var assetIdToForeignAsset: map<A, F>
    var foreignAssetToAssetId: map<F, A>
    var events: seq<Event<A, F>>

    function State(): Storage<A, F>
      reads this
    {
      Storage(assetIdToForeignAsset, foreignAssetToAssetId)
    }

    constructor (creatorOrigin: Origin -> bool, modifierOrigin: Origin -> bool, destroyerOrigin: Origin -> bool)
      ensures this.creatorOrigin == creatorOrigin
      ensures this.modifierOrigin == modifierOrigin
      ensures this.destroyerOrigin == destroyerOrigin
      ensures assetIdToForeignAsset == map[] && foreignAssetToAssetId == map[] && events == []
    {
      this.creatorOrigin := creatorOrigin;
      this.modifierOrigin := modifierOrigin;
      this.destroyerOrigin := destroyerOrigin;
      assetIdToForeignAsset := map[];
      foreignAssetToAssetId := map[];
      events := [];
    }

    /** `fungiblesCreate` is the outcome of Fungibles::create for this asset id. */
    method CreateForeignAsset(origin: Origin, foreignAsset: F, assetId: A, fungiblesCreate: External)
      returns (r: DispatchResult)
      modifies this
      ensures !creatorOrigin(origin) ==> r == Err(BadOrigin)
      ensures creatorOrigin(origin) && assetId in old(assetIdToForeignAsset) ==> r == Err(AssetAlreadyExists)
      ensures creatorOrigin(origin) && assetId !in old(assetIdToForeignAsset) && fungiblesCreate.Failed? ==>
                r == Err(FungiblesError(fungiblesCreate.code))
      ensures r.Ok? <==> creatorOrigin(origin) && assetId !in old(assetIdToForeignAsset) && fungiblesCreate.Done?
      ensures r.Err? ==> State() == old(State()) && events == old(events)
      ensures r.Ok? ==> State() == Created(old(State()), assetId, foreignAsset)
                        && events == old(events) + [ForeignAssetCreated(assetId, foreignAsset)]
    {
      if !creatorOrigin(origin) {
        return Err(BadOrigin);
      }
      if assetId in assetIdToForeignAsset {
        return Err(AssetAlreadyExists);
      }
      if fungiblesCreate.Failed? {
        return Err(FungiblesError(fungiblesCreate.code));
      }
      assetIdToForeignAsset := assetIdToForeignAsset[assetId := foreignAsset];
      foreignAssetToAssetId := foreignAssetToAssetId[foreignAsset := assetId];
      events := events + [ForeignAssetCreated(assetId, foreignAsset)];
      r := Ok;
    }

    method ChangeExistingAssetType(origin: Origin, assetId: A, newForeignAsset: F) returns (r: DispatchResult)
      modifies this
      ensures !modifierOrigin(origin) ==> r == Err(BadOrigin)
      ensures modifierOrigin(origin) && assetId !in old(assetIdToForeignAsset) ==> r == Err(AssetDoesNotExist)
      ensures r.Ok? <==> modifierOrigin(origin) && assetId in old(assetIdToForeignAsset)
      ensures r.Err? ==> State() == old(State()) && events == old(events)
      ensures r.Ok? ==> assetId in old(assetIdToForeignAsset)
                        && State() == Changed(old(State()), assetId, newForeignAsset)
                        && events == old(events) + [ForeignAssetTypeChanged(assetId, newForeignAsset)]
    {
      if !modifierOrigin(origin) {
        return Err(BadOrigin);
      }
      if assetId !in assetIdToForeignAsset {
        return Err(AssetDoesNotExist);
      }
      var previousForeignAsset := assetIdToForeignAsset[assetId];
      assetIdToForeignAsset := assetIdToForeignAsset[assetId := newForeignAsset];
      foreignAssetToAssetId := foreignAssetToAssetId[newForeignAsset := assetId];
      foreignAssetToAssetId := foreignAssetToAssetId - {previousForeignAsset};
      events := events + [ForeignAssetTypeChanged(assetId, newForeignAsset)];
      r := Ok;
    }

    method RemoveExistingAssetType(origin: Origin, assetId: A) returns (r: DispatchResult)
      modifies this
      ensures !destroyerOrigin(origin) ==> r == Err(BadOrigin)
      ensures destroyerOrigin(origin) && assetId !in old(assetIdToForeignAsset) ==> r == Err(AssetDoesNotExist)
      ensures r.Ok? <==> destroyerOrigin(origin) && assetId in old(assetIdToForeignAsset)
      ensures r.Err? ==> State() == old(State()) && events == old(events)
      ensures r.Ok? ==> assetId in old(assetIdToForeignAsset)
                        && State() == Removed(old(State()), assetId)
                        && events == old(events) + [ForeignAssetRemoved(assetId, old(assetIdToForeignAsset)[assetId])]
    {
      if !destroyerOrigin(origin) {
        return Err(BadOrigin);
      }
      if assetId !in assetIdToForeignAsset {
        return Err(AssetDoesNotExist);
      }
      var foreignAsset := assetIdToForeignAsset[assetId];
      assetIdToForeignAsset := assetIdToForeignAsset - {assetId};
      foreignAssetToAssetId := foreignAssetToAssetId - {foreignAsset};
      events := events + [ForeignAssetRemoved(assetId, foreignAsset)];
      r := Ok;
    }

    /** `startDestroy` is the outcome of Fungibles::start_destroy for this asset id. */
    method DestroyForeignAsset(origin: Origin, assetId: A, startDestroy: External) returns (r: DispatchResult)
      modifies this
      ensures !destroyerOrigin(origin) ==> r == Err(BadOrigin)
      ensures destroyerOrigin(origin) && assetId !in old(assetIdToForeignAsset) ==> r == Err(AssetDoesNotExist)
      ensures destroyerOrigin(origin) && assetId in old(assetIdToForeignAsset) && startDestroy.Failed? ==>
                r == Err(FungiblesError(startDestroy.code))
      ensures r.Ok? <==> destroyerOrigin(origin) && assetId in old(assetIdToForeignAsset) && startDestroy.Done?
      ensures r.Err? ==> State() == old(State()) && events == old(events)
      ensures r.Ok? ==> assetId in old(assetIdToForeignAsset)
                        && State() == Removed(old(State()), assetId)
                        && events == old(events) + [ForeignAssetDestroyed(assetId, old(assetIdToForeignAsset)[assetId])]
    {
      if !destroyerOrigin(origin) {
        return Err(BadOrigin);
      }
      if assetId !in assetIdToForeignAsset {
        return Err(AssetDoesNotExist);
      }
      var foreignAsset := assetIdToForeignAsset[assetId];
      if startDestroy.Failed? {
        return Err(FungiblesError(startDestroy.code));
      }
      assetIdToForeignAsset := assetIdToForeignAsset - {assetId};
      foreignAssetToAssetId := foreignAssetToAssetId - {foreignAsset};
      events := events + [ForeignAssetDestroyed(assetId, foreignAsset)];
      r := Ok;
    }
  }
}
