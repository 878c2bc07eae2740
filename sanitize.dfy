/** The four sanitizers: each copies a fixed set of fields of a host
    document into a fresh object, renaming `id` to `_id`, and (except for
    users) a fixed set of fields of the document's `data` record into a
    fresh nested object. Reading `data.name` throws when `data` is
    undefined or null.

    The contracts state each output's exact key set; the lemmas state where
    every field comes from and that the output depends on the listed
    properties only: no other property of the host document reaches the
    wire.
 */
module Sanitize {
  import opened JsValues

  /** The fields each sanitizer outputs, and the properties it reads. */
  const ActorFields: set<string> := {"_id", "name", "type", "img", "active", "ownership", "data", "flags", "createdAt", "updatedAt"}
  const ActorSources: set<string> := {"id", "name", "type", "img", "active", "ownership", "data", "flags", "createdAt", "updatedAt"}
  const ActorDataFields: set<string> := {"name", "type", "img"}

  const ItemFields: set<string> := {"_id", "name", "type", "img", "data", "flags", "createdAt", "updatedAt"}
  const ItemSources: set<string> := {"id", "name", "type", "img", "data", "flags", "createdAt", "updatedAt"}
  const ItemDataFields: set<string> := {"name", "type", "img", "rarity"}

  const SceneFields: set<string> := {"_id", "name", "img", "active", "visible", "data", "flags", "createdAt", "updatedAt"}
  const SceneSources: set<string> := {"id", "name", "img", "active", "visible", "data", "flags", "createdAt", "updatedAt"}
  const SceneDataFields: set<string> := {"name", "img", "width", "height"}

  const UserFields: set<string> := {"_id", "name", "avatar", "active", "role", "flags", "createdAt", "updatedAt"}
  const UserSources: set<string> := {"id", "name", "avatar", "active", "role", "flags", "createdAt", "updatedAt"}

  /** Two documents hold the same value in each of the named properties. */
  ghost predicate Agree(p1: Props, p2: Props, names: set<string>) {
    forall k :: k in names ==> Get(p1, k) == Get(p2, k)
  }

  /** Two readable `data` records hold the same value in each named property. */
  ghost predicate AgreeMembers(d1: Value, d2: Value, names: set<string>)
    requires Readable(d1) && Readable(d2)
  {
    forall k :: k in names ==> Member(d1, k) == Member(d2, k)
  }

  /** Throws exactly when `data` is undefined or null; otherwise yields
      exactly the ActorFields, with a `data` record of exactly the
      ActorDataFields. The other three are alike. */
  function SanitizeActor(actor: Props): (r: Result<Value, Fault>)
    ensures r.Failure? <==> !Readable(Get(actor, "data"))
    ensures r.Failure? ==> r.error == TypeError("name")
    ensures r.Success? ==> r.value.Obj? && r.value.props.Keys == ActorFields
    ensures r.Success? ==> r.value.props["data"].Obj? && r.value.props["data"].props.Keys == ActorDataFields
  {
    var d := Get(actor, "data");
    if !Readable(d) then Failure(TypeError("name"))
    else
      var out := map[
        "_id" := Get(actor, "id"),
        "name" := Get(actor, "name"),
        "type" := Get(actor, "type"),
        "img" := Get(actor, "img"),
        "active" := Get(actor, "active"),
        "ownership" := Get(actor, "ownership"),
        "data" := Obj(map[
          "name" := Member(d, "name"),
          "type" := Member(d, "type"),
          "img" := Member(d, "img")]),
        "flags" := Get(actor, "flags"),
        "createdAt" := Get(actor, "createdAt"),
        "updatedAt" := Get(actor, "updatedAt")];
      assert out.Keys == ActorFields by {
        assert ActorFields <= out.Keys;
        assert out.Keys <= ActorFields;
      }
      Success(Obj(out))
  }

  function SanitizeItem(item: Props): (r: Result<Value, Fault>)
    ensures r.Failure? <==> !Readable(Get(item, "data"))
    ensures r.Failure? ==> r.error == TypeError("name")
    ensures r.Success? ==> r.value.Obj? && r.value.props.Keys == ItemFields
    ensures r.Success? ==> r.value.props["data"].Obj? && r.value.props["data"].props.Keys == ItemDataFields
  {
    var d := Get(item, "data");
    if !Readable(d) then Failure(TypeError("name"))
    else
      var out := map[
        "_id" := Get(item, "id"),
        "name" := Get(item, "name"),
        "type" := Get(item, "type"),
        "img" := Get(item, "img"),
        "data" := Obj(map[
          "name" := Member(d, "name"),
          "type" := Member(d, "type"),
          "img" := Member(d, "img"),
          "rarity" := Member(d, "rarity")]),
        "flags" := Get(item, "flags"),
        "createdAt" := Get(item, "createdAt"),
        "updatedAt" := Get(item, "updatedAt")];
      assert out.Keys == ItemFields by {
        assert ItemFields <= out.Keys;
        assert out.Keys <= ItemFields;
      }
      Success(Obj(out))
  }

  function SanitizeScene(scene: Props): (r: Result<Value, Fault>)
    ensures r.Failure? <==> !Readable(Get(scene, "data"))
    ensures r.Failure? ==> r.error == TypeError("name")
    ensures r.Success? ==> r.value.Obj? && r.value.props.Keys == SceneFields
    ensures r.Success? ==> r.value.props["data"].Obj? && r.value.props["data"].props.Keys == SceneDataFields
  {
    var d := Get(scene, "data");
    if !Readable(d) then Failure(TypeError("name"))
    else
      var out := map[
        "_id" := Get(scene, "id"),
        "name" := Get(scene, "name"),
        "img" := Get(scene, "img"),
        "active" := Get(scene, "active"),
        "visible" := Get(scene, "visible"),
        "data" := Obj(map[
          "name" := Member(d, "name"),
          "img" := Member(d, "img"),
          "width" := Member(d, "width"),
          "height" := Member(d, "height")]),
        "flags" := Get(scene, "flags"),
        "createdAt" := Get(scene, "createdAt"),
        "updatedAt" := Get(scene, "updatedAt")];
      assert out.Keys == SceneFields by {
        assert SceneFields <= out.Keys;
        assert out.Keys <= SceneFields;
      }
      Success(Obj(out))
  }

  /** Users have no nested `data` record, so this one never throws. */
  function SanitizeUser(user: Props): (r: Value)
    ensures r.Obj? && r.props.Keys == UserFields
  {
    var out := map[
      "_id" := Get(user, "id"),
      "name" := Get(user, "name"),
      "avatar" := Get(user, "avatar"),
      "active" := Get(user, "active"),
      "role" := Get(user, "role"),
      "flags" := Get(user, "flags"),
      "createdAt" := Get(user, "createdAt"),
      "updatedAt" := Get(user, "updatedAt")];
    assert out.Keys == UserFields by {
      assert UserFields <= out.Keys;
      assert out.Keys <= UserFields;
    }
    Obj(out)
  }

  /** Every output field is copied verbatim: `_id` from `id`, the others
      from the property of the same name, and the nested ones from `data`. */
  lemma SanitizeActorCopies(actor: Props)
    requires Readable(Get(actor, "data"))
    ensures var out := SanitizeActor(actor).value.props;
      && out["_id"] == Get(actor, "id")
      && (forall k :: k in ActorSources - {"id", "data"} ==> out[k] == Get(actor, k))
      && (forall k :: k in ActorDataFields ==> out["data"].props[k] == Member(Get(actor, "data"), k))
  {
    var out := SanitizeActor(actor).value.props;
    // spelled out per field: much cheaper for the solver than the bare unfolding
    forall k | k in ActorSources - {"id", "data"} ensures out[k] == Get(actor, k) {
      assert k in {"name", "type", "img", "active", "ownership", "flags", "createdAt", "updatedAt"};
    }
  }

  /** No property of the document other than the listed ones reaches the output. */
  lemma SanitizeActorReadsOnlyItsFields(p1: Props, p2: Props)
    requires Agree(p1, p2, ActorSources - {"data"})
    requires Readable(Get(p1, "data")) <==> Readable(Get(p2, "data"))
    requires Readable(Get(p1, "data")) && Readable(Get(p2, "data")) ==>
      AgreeMembers(Get(p1, "data"), Get(p2, "data"), ActorDataFields)
    ensures SanitizeActor(p1) == SanitizeActor(p2)
  {
  }

  /** Every output field is copied verbatim: `_id` from `id`, the others
      from the property of the same name, and the nested ones from `data`. */
  lemma SanitizeItemCopies(item: Props)
    requires Readable(Get(item, "data"))
    ensures var out := SanitizeItem(item).value.props;
      && out["_id"] == Get(item, "id")
      && (forall k :: k in ItemSources - {"id", "data"} ==> out[k] == Get(item, k))
      && (forall k :: k in ItemDataFields ==> out["data"].props[k] == Member(Get(item, "data"), k))
  {
    var out := SanitizeItem(item).value.props;
    // spelled out per field: much cheaper for the solver than the bare unfolding
    forall k | k in ItemSources - {"id", "data"} ensures out[k] == Get(item, k) {
      assert k in {"name", "type", "img", "flags", "createdAt", "updatedAt"};
    }
  }

  /** No property of the document other than the listed ones reaches the output. */
  lemma SanitizeItemReadsOnlyItsFields(p1: Props, p2: Props)
    requires Agree(p1, p2, ItemSources - {"data"})
    requires Readable(Get(p1, "data")) <==> Readable(Get(p2, "data"))
    requires Readable(Get(p1, "data")) && Readable(Get(p2, "data")) ==>
      AgreeMembers(Get(p1, "data"), Get(p2, "data"), ItemDataFields)
    ensures SanitizeItem(p1) == SanitizeItem(p2)
  {
  }

  /** Every output field is copied verbatim: `_id` from `id`, the others
      from the property of the same name, and the nested ones from `data`. */
  lemma SanitizeSceneCopies(scene: Props)
    requires Readable(Get(scene, "data"))
    ensures var out := SanitizeScene(scene).value.props;
      && out["_id"] == Get(scene, "id")
      && (forall k :: k in SceneSources - {"id", "data"} ==> out[k] == Get(scene, k))
      && (forall k :: k in SceneDataFields ==> out["data"].props[k] == Member(Get(scene, "data"), k))
  {
    var out := SanitizeScene(scene).value.props;
    // spelled out per field: much cheaper for the solver than the bare unfolding
    forall k | k in SceneSources - {"id", "data"} ensures out[k] == Get(scene, k) {
      assert k in {"name", "img", "active", "visible", "flags", "createdAt", "updatedAt"};
    }
  }

  /** No property of the document other than the listed ones reaches the output. */
  lemma SanitizeSceneReadsOnlyItsFields(p1: Props, p2: Props)
    requires Agree(p1, p2, SceneSources - {"data"})
    requires Readable(Get(p1, "data")) <==> Readable(Get(p2, "data"))
    requires Readable(Get(p1, "data")) && Readable(Get(p2, "data")) ==>
      AgreeMembers(Get(p1, "data"), Get(p2, "data"), SceneDataFields)
    ensures SanitizeScene(p1) == SanitizeScene(p2)
  {
  }

  /** Every user field is copied verbatim: `_id` from `id`, the others
      from the property of the same name. */
  lemma SanitizeUserCopies(user: Props)
    ensures SanitizeUser(user).props["_id"] == Get(user, "id")
    ensures forall k :: k in UserSources - {"id"} ==> SanitizeUser(user).props[k] == Get(user, k)
  {
    var out := SanitizeUser(user).props;
    // spelled out per field: much cheaper for the solver than the bare unfolding
    forall k | k in UserSources - {"id"} ensures out[k] == Get(user, k) {
      assert k in {"name", "avatar", "active", "role", "flags", "createdAt", "updatedAt"};
    }
  }

  /** No property of a user other than the listed ones reaches the output. */
  lemma SanitizeUserReadsOnlyItsFields(u1: Props, u2: Props)
    requires Agree(u1, u2, UserSources)
    ensures SanitizeUser(u1) == SanitizeUser(u2)
  {
  }
}
