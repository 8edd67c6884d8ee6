/**
 Properties of the JSON helpers that relate several calls or that follow from
 the grouping reference: which inputs a helper never consults, and how
 `json_models` partitions its collection.
 */
module JsonOutputProperties {
  import opened RubyValues
  import opened Grouping
  import opened JsonOutputHelper

  /** For an accepted kind and no extras the envelope is exactly the four
      defaults. */
  lemma JsonResponseDefaults(kind: Value)
    requires kind in ResponseKinds
    ensures JsonResponse(kind, map[]) == Ok(map[StatusKey := kind, HtmlKey := Nil, NoticeKey := Nil, ToKey := Nil])
  {
    var defaults := map[StatusKey := kind, HtmlKey := Nil, NoticeKey := Nil, ToKey := Nil];
    assert Merge(defaults, map[]) == defaults;
  }

  /** A given message is used as is: the localisation lookup is never
      consulted, whatever it would return. */
  lemma JsonErrorKeepsGivenMessage(code: Value, message: Value, metadata: Hash, fw1: Collaborators, fw2: Collaborators)
    requires Truthy(message)
    ensures JsonError(code, message, metadata, fw1) == JsonError(code, message, metadata, fw2)
    ensures JsonError(code, message, metadata, fw1)[ErrorKey].entries[MessageKey] == message
  {
  }

  /** An empty string is truthy in Ruby, so it is kept as the message rather
      than replaced by the localised one. */
  lemma JsonErrorKeepsEmptyMessage(code: Value, metadata: Hash, fw: Collaborators)
    ensures JsonError(code, Str(""), metadata, fw)[ErrorKey].entries[MessageKey] == Str("")
  {
  }

  /** Metadata cannot shadow the code or the message, whatever it holds under
      those keys. */
  lemma JsonErrorFixedFieldsWin(code: Value, message: Value, metadata: Hash, fw: Collaborators)
    ensures var inner := JsonError(code, message, metadata, fw)[ErrorKey].entries;
            && inner[CodeKey] == code
            && inner[MessageKey] == JsonError(code, message, map[], fw)[ErrorKey].entries[MessageKey]
  {
  }

  /** An invalid model yields the `model_error` envelope of its first error
      whatever its serializers and the extras are: the attributes method is
      never called and the extras are dropped. */
  lemma JsonModelErrorIgnoresSerializer(model: Model, methods: map<string, Value>, extra1: Hash, extra2: Hash, fw: Collaborators)
    requires |model.errors| > 0
    ensures JsonModel(model, extra1, fw) == JsonModel(model.(methods := methods), extra2, fw)
    ensures JsonModel(model, extra1, fw).Ok?
    ensures var inner := JsonModel(model, extra1, fw).value[ErrorKey].entries;
            && inner.Keys == {MessageKey, CodeKey}
            && inner[CodeKey] == ModelErrorCode
            && inner[MessageKey] == Str(model.errors[0].0 + " " + model.errors[0].1)
  {
  }

  /** Without `:attributes` in the extras a valid model is serialized by
      `api_attributes`. */
  lemma JsonModelDefaultSerializer(model: Model, extra: Hash, fw: Collaborators)
    requires |model.errors| == 0 && AttributesKey !in extra
    requires DefaultAttributesMethod in model.methods
    ensures JsonModel(model, extra, fw).Ok?
    ensures Str(fw.singularName(model.className)) !in extra ==>
              JsonModel(model, extra, fw).value[Str(fw.singularName(model.className))] == model.methods[DefaultAttributesMethod]
  {
  }

  /** `group_by` over the tagged items of `json_models` files every model's
      item in the group of its own pluralised class name and in no other. */
  lemma {:induction false} TaggedGroupsMembership(models: seq<Model>, name: string, fw: Collaborators)
    requires TagItems(models, name, fw).Ok?
    ensures var items := TagItems(models, name, fw).value;
            var g := GroupBy(items, ClassNameOf);
            && (forall i :: 0 <= i < |models| ==>
                  Str(fw.pluralName(models[i].className)) in g && items[i] in g[Str(fw.pluralName(models[i].className))])
            && (forall i, k :: 0 <= i < |models| && k in g && items[i] in g[k] ==>
                  k == Str(fw.pluralName(models[i].className)))
  {
    var items := TagItems(models, name, fw).value;
    var g := GroupBy(items, ClassNameOf);
    forall i | 0 <= i < |models|
      ensures items[i] in g[Str(fw.pluralName(models[i].className))]
    {
      GroupByIsFilter(items, ClassNameOf, Str(fw.pluralName(models[i].className)));
    }
    forall i, k | 0 <= i < |models| && k in g && items[i] in g[k]
      ensures k == Str(fw.pluralName(models[i].className))
    {
      var j :| 0 <= j < |g[k]| && g[k][j] == items[i];
    }
  }

  /** Each group of `json_models` is the tagged items filtered by its key, so
      items keep their input order. */
  lemma {:induction false} TaggedGroupsAreFilters(models: seq<Model>, name: string, fw: Collaborators)
    requires TagItems(models, name, fw).Ok?
    ensures var items := TagItems(models, name, fw).value;
            forall k :: k in GroupBy(items, ClassNameOf) ==> GroupBy(items, ClassNameOf)[k] == Filter(items, ClassNameOf, k)
  {
    var items := TagItems(models, name, fw).value;
    forall k | k in GroupBy(items, ClassNameOf)
      ensures GroupBy(items, ClassNameOf)[k] == Filter(items, ClassNameOf, k)
    {
      GroupByIsFilter(items, ClassNameOf, k);
    }
  }

  /** The groups of `json_models` hold as many items as there are models. */
  lemma {:induction false} TaggedGroupsCount(models: seq<Model>, name: string, fw: Collaborators)
    requires TagItems(models, name, fw).Ok?
    ensures TotalSize(GroupBy(TagItems(models, name, fw).value, ClassNameOf)) == |models|
  {
    GroupByTotal(TagItems(models, name, fw).value, ClassNameOf);
  }

  /** Outside the extras, every key of a non-empty `json_models` envelope is a
      group: a string key mapped to the array of items filtered by it. */
  lemma JsonModelsGroups(models: seq<Model>, extra: Hash, fw: Collaborators)
    requires |models| > 0 && JsonModels(models, extra, fw).Ok?
    ensures var items := TagItems(models, AttributesMethod(extra).value, fw).value;
            var r := JsonModels(models, extra, fw).value;
            forall k :: k in r && k !in extra ==>
              k.Str? && r[k] == Array(Dicts(Filter(items, ClassNameOf, k))) && Filter(items, ClassNameOf, k) != []
  {
    var items := TagItems(models, AttributesMethod(extra).value, fw).value;
    var r := JsonModels(models, extra, fw).value;
    var g := GroupBy(items, ClassNameOf);
    GroupKeysAreStrings(items);
    forall k | k in r && k !in extra
      ensures k.Str? && r[k] == Array(Dicts(Filter(items, ClassNameOf, k))) && Filter(items, ClassNameOf, k) != []
    {
      assert k in g;
      GroupByIsFilter(items, ClassNameOf, k);
    }
  }
}
