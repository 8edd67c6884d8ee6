# JsonOutputHelper in Dafny

A model of `JsonOutputHelper`. This is a Rails controller mixin that gives every controller one
shape of JSON response:

- `json_response` builds a status envelope (`ok`, `redirect` or `error`);
- `json_success` and `json_error` build the success and error envelopes;
- `json_model` serializes one model, or reports its first validation error;
- `json_models` serializes a collection, grouped by the pluralised class name of each model.

Each helper becomes a pure function that returns the hash it would have rendered. A `raise`
becomes an `Err` result.

Files:

- `ruby_values.dfy` (module `RubyValues`) holds the Ruby side:
  - a `Value` datatype (nil, booleans, integers, strings, symbols, arrays, hashes). Hash keys are
    `Value`s, so `:status` and `"status"` are different keys, as in Ruby;
  - `Hash` as `map<Value, Value>`. `merge` is right-biased map union and `except` is key removal;
  - Ruby truthiness (only `nil` and `false` are falsy) and string interpolation;
  - the three exceptions the helpers can raise, and a `Result` type.
- `grouping.dfy` (module `Grouping`) holds `Enumerable#group_by`. It is built the way Ruby's loop
  builds it, one appended element at a time. It is checked against two independent references:
  - a filter of the input by one key;
  - a count of the elements held in all groups.
- `json_output_helper.dfy` (module `JsonOutputHelper`) holds the five helpers.
- `json_output_properties.dfy` (module `JsonOutputProperties`) holds the lemmas that relate
  several calls: which inputs a helper never consults, and the partition that `json_models`
  produces.

Collaborators are fields of a `Collaborators` value passed to the helpers:

- the localisation lookup `t`;
- `inspect`, which gives `to_s` of integers, arrays and hashes;
- `downcase.underscore` of a class name (`singularName`);
- `downcase.pluralize` of a class name (`pluralName`).

A model is a `Model` record holding three things:

- its class name;
- its validation errors, as (attribute, message) pairs in order;
- the zero-argument methods it responds to, with what each returns. This stands in for `send`.

Consequences of the code worth stating:

- `json_error` falls back to `t("api.errors.<code>")` only when the message is `nil` or `false`.
  An empty string is truthy in Ruby and is kept (`JsonErrorKeepsEmptyMessage`).
- `message` and `code` are merged over the error metadata, so the metadata can never shadow them.
- The `model_error` message is the first error's attribute and message joined by one space
  (`errors.first.join(' ')`).
- `json_model` drops the extras when the model has validation errors.
- `status` holds the kind exactly as given. Only the symbols `:ok`, `:redirect` and `:error` are
  accepted, so the string `"ok"` raises.
- The message of `json_success` may be any value.

## Model

| member | source | states |
|---|---|---|
| JsonOutputHelper.JsonResponse | lib/json_output_helper.rb:10-25 | The call fails with `InvalidResponseType(kind)` exactly when the kind is not one of `:ok`, `:redirect`, `:error`. On success the key set is the four default keys plus the caller's keys. Every caller key keeps the caller's value, `:status` included. A default key the caller does not set is `status => kind` or nil. |
| JsonOutputHelper.JsonSuccess | lib/json_output_helper.rb:39-45 | The key set is `success`, `message` and the caller's keys. The caller's values win on every collision. Otherwise `success` is true and `message` is the given message. |
| JsonOutputHelper.JsonError | lib/json_output_helper.rb:48-55 | The only key is `:error`, and it holds a hash. Its keys are the metadata keys plus `message` and `code`. `code` is always the given code. `message` is the given message when that is truthy, otherwise `t("api.errors.<code>")`. Every other metadata key keeps its value. |
| JsonOutputHelper.AttributesMethod | lib/json_output_helper.rb:69 | With no `:attributes` extra, or a nil or false one, the method name is `api_attributes`. A string or symbol names the method itself. Any other truthy value raises `NotAMethodName` of that value (Ruby's TypeError), and nothing else raises. |
| JsonOutputHelper.JsonModel | lib/json_output_helper.rb:65-74 | A model with errors gives the error envelope with code `:model_error` and, as its message, the first error's attribute and message joined by one space. A valid model succeeds iff its attributes method resolves and exists; otherwise it raises `NotAMethodName` for a bad `:attributes` value, or `NoMethod` of the method name. The result's keys are the singular model name plus the extra keys other than `:attributes`. The name maps to the serializer's value unless an extra overrides it. Extras keep their values. `:attributes` never appears. |
| JsonOutputHelper.FirstUnserializable | lib/json_output_helper.rb:82 | The index where `collect` stops: every model before it serializes to a hash, and the model at it, if any, does not. |
| JsonOutputHelper.TagItems | lib/json_output_helper.rb:82 | The call succeeds iff every model's attributes method exists and returns a hash. A failure is that of the first model that does not serialize: `NoMethod` of the name when it lacks the method, `NoMethod` of `merge` when the method returns something other than a hash. There is one item per model. Item `i` has `_class_name` equal to the pluralised class name of model `i`. Its other keys equal that model's attributes. |
| JsonOutputHelper.JsonModels | lib/json_output_helper.rb:78-88 | An empty collection gives exactly the extras without `:attributes`. A non-empty one succeeds iff the method name resolves and every model serializes to a hash; otherwise it raises `NotAMethodName` for a bad `:attributes` value, or the fault of the first model that does not serialize, as `TagItems` states it. Extras other than `:attributes` keep their values. `:attributes` never appears. Every model's pluralised class name is a key. |
| JsonOutputHelper.GroupKeysAreStrings | lib/json_output_helper.rb:82-84 | When items are tagged with string class names, every group key is a string. So no group can collide with the `:attributes` key that is removed from the extras. |
| Grouping.GroupBy | lib/json_output_helper.rb:82 | Every element's key has a group, and every group is non-empty. Each group holds only elements of the input whose key is that group's key. |
| Grouping.Filter | lib/json_output_helper.rb:82 | The reference for one group: exactly the input elements with the given key. The result is never longer than the input. |
| Grouping.GroupByIsFilter | lib/json_output_helper.rb:82 | A key has a group iff its filter is non-empty. The group equals the filter of the input by that key, so input order is kept within a group. |
| Grouping.GroupByTotal | lib/json_output_helper.rb:82 | The groups together hold exactly as many elements as the input. |
| JsonOutputProperties.JsonResponseDefaults | lib/json_output_helper.rb:18-23 | For an accepted kind and an empty hash, the envelope is exactly `{status: kind, html: nil, notice: nil, to: nil}`. |
| JsonOutputProperties.JsonErrorKeepsGivenMessage | lib/json_output_helper.rb:51 | With a truthy message, the envelope does not depend on the collaborators: `t` is never consulted, and the message is the given one. |
| JsonOutputProperties.JsonErrorKeepsEmptyMessage | lib/json_output_helper.rb:51 | The empty string is truthy, so it is kept as the message. |
| JsonOutputProperties.JsonErrorFixedFieldsWin | lib/json_output_helper.rb:50-53 | Whatever the metadata holds, `code` is the given code. `message` is the same as it would be with no metadata at all. |
| JsonOutputProperties.JsonModelErrorIgnoresSerializer | lib/json_output_helper.rb:68-72 | For a model with errors, the result does not depend on its methods or on the extras. The error hash holds exactly `code: :model_error` and the first error's parts joined by one space. |
| JsonOutputProperties.JsonModelDefaultSerializer | lib/json_output_helper.rb:69-70 | Without `:attributes`, a valid model that responds to `api_attributes` succeeds. Its name maps to what `api_attributes` returns. |
| JsonOutputProperties.TaggedGroupsMembership | lib/json_output_helper.rb:82 | Item `i` of the tagged items lies in the group keyed by the pluralised class name of model `i`, and in no other group. |
| JsonOutputProperties.TaggedGroupsAreFilters | lib/json_output_helper.rb:82 | Each group equals the tagged items filtered by its key, so items keep their input order within a group. |
| JsonOutputProperties.TaggedGroupsCount | lib/json_output_helper.rb:82 | The groups together hold exactly as many items as there are models: none is dropped and none is duplicated. |
| JsonOutputProperties.JsonModelsGroups | lib/json_output_helper.rb:82-84 | In a non-empty result, every key not set by the extras is a string. It maps to the array of the tagged items filtered by that key, and that array is non-empty. |

## Left out

- `render :json => ...` and JSON serialization are framework output. Each helper returns the hash
  it would render (lines 29, 44, 49, 70, 84, 86).
- The Ruby default arguments (`hash = {}`, `message=nil`, `metadata={}`, `extra_params={}`) are
  explicit parameters. Passing `map[]` or `Nil` gives the default behaviour, so nothing is lost.
- `render_json_response` only wraps `json_response` in a render (lines 28-30).
- The mixin into `ActionController::Base` is framework registration only (lines 95-97).
- The localisation lookup `t`, Rails inflection (`downcase`, `underscore`, `pluralize`) and Ruby's
  `inspect` belong to libraries whose code is not part of this model. They are opaque functions
  in `Collaborators`.
- `Value` has no floats and no arbitrary objects (times, nested models). A serializer's hash may
  hold them, but the helpers only pass them through, so nothing the helpers compute depends on
  them.
- `present?` is modelled for arrays only: an absent collection is an empty sequence.
- `model.send` is a lookup in the model's method table, and ActiveModel's errors object is a list
  of (attribute, message) pairs. So the `errors.first` of newer Rails versions, which returns an
  error object rather than a pair, is not modelled.
- Hash insertion order is not modelled: hashes are maps. The grouped lists are sequences and keep
  their order.
