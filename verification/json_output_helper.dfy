/**
 The controller mixin `JsonOutputHelper` with every `render :json => h`
 replaced by returning `h`, and every `raise` by an `Err`. The framework
 collaborators (localisation, inflection, `inspect`) are passed in.
 */
module JsonOutputHelper {
  import opened RubyValues
  import opened Grouping

  /** What the host framework supplies and this mixin cannot see. */
  datatype Collaborators = Collaborators(
    t: string -> string,             // the localisation lookup `t(key)`
    inspect: Value -> string,        // `to_s` of integers, arrays and hashes
    singularName: string -> string,  // `name.downcase.underscore`
    pluralName: string -> string     // `name.downcase.pluralize`
  )

  /** A model object: its class name, its validation errors as
      (attribute, message) pairs in order, and the zero-argument methods it
      responds to with what each returns. */
  datatype Model = Model(className: string, errors: seq<(string, string)>, methods: map<string, Value>)

  const StatusKey := Sym("status")
  const HtmlKey := Sym("html")
  const NoticeKey := Sym("notice")
  const ToKey := Sym("to")
  const SuccessKey := Sym("success")
  const MessageKey := Sym("message")
  const ErrorKey := Sym("error")
  const CodeKey := Sym("code")
  const AttributesKey := Sym("attributes")
  const ClassNameKey := Sym("_class_name")
  const ModelErrorCode := Sym("model_error")
  const DefaultAttributesMethod := "api_attributes"

  /** The response kinds `json_response` accepts. */
  const ResponseKinds: set<Value> := {Sym("ok"), Sym("redirect"), Sym("error")}

  const ResponseDefaultKeys: set<Value> := {StatusKey, HtmlKey, NoticeKey, ToKey}

  /** `json_response(type, hash)`: the standard envelope with `status` set to
      the kind and `html`, `notice`, `to` defaulting to nil; the caller's hash
      is merged over it, so any of its keys, `status` included, wins. */
  function JsonResponse(kind: Value, hash: Hash): (r: Result<Hash>)
    ensures r.Err? <==> kind !in ResponseKinds
    ensures r.Err? ==> r.fault == InvalidResponseType(kind)
    ensures r.Ok? ==> r.value.Keys == ResponseDefaultKeys + hash.Keys
    ensures r.Ok? ==> forall k :: k in hash ==> r.value[k] == hash[k]
    ensures r.Ok? && StatusKey !in hash ==> r.value[StatusKey] == kind
    ensures r.Ok? ==> forall k :: k in ResponseDefaultKeys - {StatusKey} && k !in hash ==> r.value[k] == Nil
  {
    if kind !in ResponseKinds then Err(InvalidResponseType(kind))
    else
      var defaults := map[StatusKey := kind, HtmlKey := Nil, NoticeKey := Nil, ToKey := Nil];
      Ok(Merge(defaults, hash))
  }

  /** `json_success(message, hash)`: `success: true` and the message, with
      the caller's hash merged over both. */
  function JsonSuccess(message: Value, hash: Hash): (r: Hash)
    ensures r.Keys == {SuccessKey, MessageKey} + hash.Keys
    ensures forall k :: k in hash ==> r[k] == hash[k]
    ensures SuccessKey !in hash ==> r[SuccessKey] == Bool(true)
    ensures MessageKey !in hash ==> r[MessageKey] == message
  {
    Merge(map[SuccessKey := Bool(true), MessageKey := message], hash)
  }

  /** The localisation key of an error code, `"api.errors.#{code}"`. */
  function LocaleKey(code: Value, fw: Collaborators): string {
    "api.errors." + ToS(code, fw.inspect)
  }

  /** `message || t("api.errors.#{code}")`. */
  function ErrorMessage(code: Value, message: Value, fw: Collaborators): Value {
    if Truthy(message) then message else Str(fw.t(LocaleKey(code, fw)))
  }

  /** `json_error(code, message, metadata)`: a single `error` key holding the
      metadata with `message` and `code` merged over it, so neither can be
      shadowed by the metadata; a nil or false message is looked up by code. */
  function JsonError(code: Value, message: Value, metadata: Hash, fw: Collaborators): (r: Hash)
    ensures r.Keys == {ErrorKey}
    ensures r[ErrorKey].Dict?
    ensures r[ErrorKey].entries.Keys == metadata.Keys + {MessageKey, CodeKey}
    ensures r[ErrorKey].entries[CodeKey] == code
    ensures Truthy(message) ==> r[ErrorKey].entries[MessageKey] == message
    ensures !Truthy(message) ==> r[ErrorKey].entries[MessageKey] == Str(fw.t("api.errors." + ToS(code, fw.inspect)))
    ensures forall k :: k in metadata && k != MessageKey && k != CodeKey ==> r[ErrorKey].entries[k] == metadata[k]
  {
    map[ErrorKey := Dict(Merge(metadata, map[MessageKey := ErrorMessage(code, message, fw), CodeKey := code]))]
  }

  /** `extra_params[:attributes] || "api_attributes"`, as the name `send`
      dispatches on; a truthy value that is neither a string nor a symbol
      makes `send` raise. */
  function AttributesMethod(extra: Hash): (r: Result<string>)
    ensures AttributesKey !in extra ==> r == Ok(DefaultAttributesMethod)
    ensures r.Err? <==> Truthy(Lookup(extra, AttributesKey)) && !Lookup(extra, AttributesKey).Str? && !Lookup(extra, AttributesKey).Sym?
    ensures r.Ok? && Truthy(Lookup(extra, AttributesKey)) ==>
              Lookup(extra, AttributesKey) in {Str(r.value), Sym(r.value)}
    ensures r.Ok? && !Truthy(Lookup(extra, AttributesKey)) ==> r.value == DefaultAttributesMethod
    ensures r.Err? ==> r.fault == NotAMethodName(Lookup(extra, AttributesKey))
  {
    var arg := Lookup(extra, AttributesKey);
    if !Truthy(arg) then Ok(DefaultAttributesMethod)
    else
      match arg
      case Str(s) => Ok(s)
      case Sym(name) => Ok(name)
      case _ => Err(NotAMethodName(arg))
  }

  /** `model.send(name)`. */
  function Send(model: Model, name: string): Result<Value> {
    if name in model.methods then Ok(model.methods[name]) else Err(NoMethod(name))
  }

  /** `errors.first.join(' ')`: the first error's attribute and message. */
  function FirstErrorMessage(model: Model): string
    requires |model.errors| > 0
  {
    model.errors[0].0 + " " + model.errors[0].1
  }

  /** `json_model(model, extra_params)`. A model with validation errors gives
      the error envelope of its first error, whatever its serializer and the
      extras; a valid model gives its singular name mapped to what the
      attributes method returns, merged with the extras minus `:attributes`. */
  function JsonModel(model: Model, extra: Hash, fw: Collaborators): (r: Result<Hash>)
    ensures |model.errors| > 0 ==> r == Ok(JsonError(ModelErrorCode, Str(FirstErrorMessage(model)), map[], fw))
    ensures |model.errors| == 0 ==>
              (r.Ok? <==> AttributesMethod(extra).Ok? && AttributesMethod(extra).value in model.methods)
    ensures r.Ok? ==> AttributesKey !in r.value
    ensures r.Ok? && |model.errors| == 0 ==>
              r.value.Keys == {Str(fw.singularName(model.className))} + (extra.Keys - {AttributesKey})
    ensures r.Ok? && |model.errors| == 0 && Str(fw.singularName(model.className)) !in extra ==>
              r.value[Str(fw.singularName(model.className))] == model.methods[AttributesMethod(extra).value]
    ensures r.Ok? && |model.errors| == 0 ==>
              forall k :: k in extra && k != AttributesKey ==> r.value[k] == extra[k]
    ensures r.Err? && AttributesMethod(extra).Err? ==> r.fault == AttributesMethod(extra).fault
    ensures r.Err? && AttributesMethod(extra).Ok? ==> r.fault == NoMethod(AttributesMethod(extra).value)
  {
    if |model.errors| == 0 then
      var name :- AttributesMethod(extra);
      var m :- Send(model, name);
      Ok(Merge(map[Str(fw.singularName(model.className)) := m], Except(extra, AttributesKey)))
    else
      Ok(JsonError(ModelErrorCode, Str(FirstErrorMessage(model)), map[], fw))
  }

  /** `attrs.merge({:_class_name => plural})`. */
  function Tag(attrs: Hash, plural: string): Hash {
    Merge(attrs, map[ClassNameKey := Str(plural)])
  }

  /** `d[:_class_name]`, the key `group_by` files an item under. */
  function ClassNameOf(d: Hash): Value {
    Lookup(d, ClassNameKey)
  }

  /** A model whose attributes method returns a hash, so `merge` applies. */
  predicate Serializes(model: Model, name: string) {
    name in model.methods && model.methods[name].Dict?
  }

  /** The index of the first model that does not serialize, or the length of
      the collection when every model does. */
  function FirstUnserializable(models: seq<Model>, name: string): (i: nat)
    ensures i <= |models|
    ensures forall j :: 0 <= j < i ==> Serializes(models[j], name)
    ensures i < |models| ==> !Serializes(models[i], name)
    decreases |models|
  {
    if |models| == 0 || !Serializes(models[0], name) then 0
    else 1 + FirstUnserializable(models[1..], name)
  }

  /** What a model that does not serialize raises: `send` of a missing method,
      or `merge` on a value that is not a hash. */
  function SerializeFault(model: Model, name: string): Fault {
    if name in model.methods then NoMethod("merge") else NoMethod(name)
  }

  /** The `collect` of `json_models`: each model's attributes hash tagged with
      its pluralised class name, in input order; the first model that lacks
      the method, or whose method returns something other than a hash,
      raises. */
  function TagItems(models: seq<Model>, name: string, fw: Collaborators): (r: Result<seq<Hash>>)
    ensures r.Ok? <==> forall i :: 0 <= i < |models| ==> Serializes(models[i], name)
    ensures r.Err? ==> FirstUnserializable(models, name) < |models|
    ensures r.Err? ==> r.fault == SerializeFault(models[FirstUnserializable(models, name)], name)
    ensures r.Ok? ==> |r.value| == |models|
    ensures r.Ok? ==> forall i :: 0 <= i < |models| ==>
              ClassNameOf(r.value[i]) == Str(fw.pluralName(models[i].className))
    ensures r.Ok? ==> forall i :: 0 <= i < |models| ==>
              r.value[i] - {ClassNameKey} == models[i].methods[name].entries - {ClassNameKey}
    decreases |models|
  {
    if |models| == 0 then Ok([])
    else
      var v :- Send(models[0], name);
      if !v.Dict? then Err(NoMethod("merge"))
      else
        var rest :- TagItems(models[1..], name, fw);
        Ok([Tag(v.entries, fw.pluralName(models[0].className))] + rest)
  }

  /** Each item as a hash value. */
  function Dicts(items: seq<Hash>): seq<Value> {
    seq(|items|, i requires 0 <= i < |items| => Dict(items[i]))
  }

  /** Items tagged with a class name are filed under string keys only, so
      no group can be the `:attributes` key. */
  lemma GroupKeysAreStrings(items: seq<Hash>)
    requires forall i :: 0 <= i < |items| ==> ClassNameOf(items[i]).Str?
    ensures forall k :: k in GroupBy(items, ClassNameOf) ==> k.Str?
  {
    var g := GroupBy(items, ClassNameOf);
    forall k | k in g
      ensures k.Str?
    {
      var x := g[k][0];
      var j :| 0 <= j < |items| && items[j] == x;
    }
  }

  /** The result of `group_by` as a Ruby hash of arrays. */
  function GroupsAsHash(g: map<Value, seq<Hash>>): Hash {
    map k | k in g :: Array(Dicts(g[k]))
  }

  /** `json_models(models, extra_params)`. An empty or absent collection gives
      the extras minus `:attributes`; otherwise the tagged items grouped by
      their `_class_name`, with the extras minus `:attributes` merged over the
      groups. */
  function JsonModels(models: seq<Model>, extra: Hash, fw: Collaborators): (r: Result<Hash>)
    ensures |models| == 0 ==> r == Ok(extra - {AttributesKey})
    ensures |models| > 0 ==>
              (r.Ok? <==> AttributesMethod(extra).Ok? &&
                          forall i :: 0 <= i < |models| ==> Serializes(models[i], AttributesMethod(extra).value))
    ensures r.Ok? ==> AttributesKey !in r.value
    ensures r.Ok? ==> forall k :: k in extra && k != AttributesKey ==> k in r.value && r.value[k] == extra[k]
    ensures r.Ok? ==> forall i :: 0 <= i < |models| ==> Str(fw.pluralName(models[i].className)) in r.value
    ensures r.Err? && AttributesMethod(extra).Err? ==> r.fault == AttributesMethod(extra).fault
    ensures r.Err? && AttributesMethod(extra).Ok? ==>
              r.fault == TagItems(models, AttributesMethod(extra).value, fw).fault
  {
    if |models| == 0 then Ok(Except(extra, AttributesKey))
    else
      var name :- AttributesMethod(extra);
      var items :- TagItems(models, name, fw);
      var groups := GroupBy(items, ClassNameOf);
      GroupKeysAreStrings(items);
      Ok(Merge(GroupsAsHash(groups), Except(extra, AttributesKey)))
  }
}
