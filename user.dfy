/**
 * The LaunchDarkly user that `configure` builds from its `options` map: the
 * reserved fields copied one by one, then every other entry whose value is a
 * number or a string attached as a custom attribute.
 */
module LaunchDarklyUser {

  import opened Wrappers
  import opened ReadableMap

  /** A custom attribute, typed as the builder's `custom(key, double)` and
      `custom(key, String)` overloads record it. */
  datatype Attribute = NumberAttribute(n: Number) | StringAttribute(s: string)

  /** What `LDUser.Builder` records: the key given to its constructor, each
      optional field that was set (`None` when its setter was never called), and
      the custom attributes. */
  datatype User = User(
    key: JString,
    email: Option<JString>,
    firstName: Option<JString>,
    lastName: Option<JString>,
    anonymous: Option<bool>,
    custom: map<string, Attribute>)

  /** The option names that are never custom attributes. */
  const NonCustomFields: set<string> := {"key", "email", "firstName", "lastName", "isAnonymous"}

  /** `new LDUser.Builder(key)`: a user with only its key. */
  function NewBuilder(key: JString): User
  {
    User(key, None, None, None, None, map[])
  }

  /** The reserved-field copy: the key always, `email`, `firstName` and `lastName`
      as strings and `isAnonymous` as a boolean, each only when the map has it. */
  function ReservedFields(options: Options): (r: User)
    ensures r.email.Some? <==> "email" in options
    ensures r.firstName.Some? <==> "firstName" in options
    ensures r.lastName.Some? <==> "lastName" in options
    ensures r.anonymous.Some? <==> "isAnonymous" in options
    ensures r.custom == map[]
  {
    var withKey := NewBuilder(GetString(options, "key"));
    var withEmail :=
      if "email" in options then withKey.(email := Some(GetString(options, "email"))) else withKey;
    var withFirst :=
      if "firstName" in options then withEmail.(firstName := Some(GetString(options, "firstName"))) else withEmail;
    var withLast :=
      if "lastName" in options then withFirst.(lastName := Some(GetString(options, "lastName"))) else withFirst;
    if "isAnonymous" in options then withLast.(anonymous := Some(GetBoolean(options, "isAnonymous"))) else withLast
  }

  /** The attribute an option value becomes, if any: numbers and strings keep
      their type and value, every other type is dropped. */
  function AsAttribute(v: Value): Option<Attribute>
  {
    match v
    case NumberValue(n) => Some(NumberAttribute(n))
    case StringValue(s) => Some(StringAttribute(s))
    case _ => None
  }

  /** The option value an attribute came from. */
  function AsValue(a: Attribute): Value
  {
    match a
    case NumberAttribute(n) => NumberValue(n)
    case StringAttribute(s) => StringValue(s)
  }

  /** True when `key` of `options` becomes a custom attribute. */
  predicate IsCustom(options: Options, key: string)
  {
    key in options && key !in NonCustomFields && AsAttribute(options[key]).Some?
  }

  /** The declarative filter: every non-reserved entry of a number or string type,
      converted to an attribute. */
  function CustomAttributes(options: Options): map<string, Attribute>
  {
    map key | key in options && IsCustom(options, key) :: AsAttribute(options[key]).value
  }

  /** The whole user that `configure` builds. */
  function UserFromOptions(options: Options): User
  {
    ReservedFields(options).(custom := CustomAttributes(options))
  }

  /** The options restricted to a set of keys, used to describe a partial walk. */
  function Restrict(options: Options, keys: set<string>): Options
  {
    map k | k in options && k in keys :: options[k]
  }

  /**
   * Builds the user as `configure` does: the reserved fields first, then a walk
   * over every key of the map that reassigns the builder with each custom
   * attribute it finds. The walk's order is not fixed, and the result does not
   * depend on it.
   */
  method BuildUser(options: Options) returns (user: User)
    ensures user == UserFromOptions(options)
  {
    user := ReservedFields(options);
    var pending := options.Keys;
    while pending != {}
      invariant pending <= options.Keys
      invariant user == ReservedFields(options).(custom := CustomAttributes(Restrict(options, options.Keys - pending)))
      decreases pending
    {
      var key :| key in pending;
      ghost var visited := options.Keys - pending;
      CustomAttributesStep(options, visited, key);
      if key !in NonCustomFields {
        match options[key]
        case NumberValue(n) =>
          user := user.(custom := user.custom[key := NumberAttribute(n)]);
        case StringValue(s) =>
          user := user.(custom := user.custom[key := StringAttribute(s)]);
        case _ =>
      }
      pending := pending - {key};
      assert options.Keys - pending == visited + {key};
    }
    assert Restrict(options, options.Keys) == options;
  }

  /** One step of the walk: visiting one more key adds exactly that key's
      attribute, if it has one, to what was collected so far. */
  lemma CustomAttributesStep(options: Options, visited: set<string>, key: string)
    requires key in options && key !in visited
    ensures CustomAttributes(Restrict(options, visited + {key})) ==
      if IsCustom(options, key)
      then CustomAttributes(Restrict(options, visited))[key := AsAttribute(options[key]).value]
      else CustomAttributes(Restrict(options, visited))
  {
  }

  /** The custom attributes are exactly the non-reserved keys whose value is a
      number or a string: no other key appears. */
  lemma CustomKeysExactly(options: Options, key: string)
    ensures key in CustomAttributes(options) <==>
      key in options && key !in NonCustomFields &&
      (options[key].NumberValue? || options[key].StringValue?)
  {
  }

  /** No reserved name is ever a custom attribute, whatever its value. */
  lemma ReservedNeverCustom(options: Options)
    ensures forall key :: key in NonCustomFields ==> key !in CustomAttributes(options)
  {
  }

  /** Custom attributes keep their type and value; entries of any other type add nothing. */
  lemma CustomKeepsType(options: Options, key: string)
    requires key in options && key !in NonCustomFields
    ensures options[key].NumberValue? ==> CustomAttributes(options)[key] == NumberAttribute(options[key].n)
    ensures options[key].StringValue? ==> CustomAttributes(options)[key] == StringAttribute(options[key].s)
    ensures !options[key].NumberValue? && !options[key].StringValue? ==> key !in CustomAttributes(options)
  {
  }

  /** The whole-map form of `CustomKeepsType`: reading the attributes back as
      option values gives, in one equation, exactly the entries they came from,
      so no key is invented or lost and no value changes. `AsValue` is that
      reading back. */
  lemma CustomRoundTrip(options: Options)
    ensures (map key | key in CustomAttributes(options) :: AsValue(CustomAttributes(options)[key])) ==
      (map key | key in options && IsCustom(options, key) :: options[key])
  {
  }

  /** The reserved copy: the user's key is the `key` option, and each optional
      field is set exactly when its option is present, to that option's value. */
  lemma ReservedFieldsCopied(options: Options)
    ensures ReservedFields(options).key == GetString(options, "key")
    ensures ReservedFields(options).email ==
      if "email" in options then Some(GetString(options, "email")) else None
    ensures ReservedFields(options).firstName ==
      if "firstName" in options then Some(GetString(options, "firstName")) else None
    ensures ReservedFields(options).lastName ==
      if "lastName" in options then Some(GetString(options, "lastName")) else None
    ensures ReservedFields(options).anonymous ==
      if "isAnonymous" in options then Some(GetBoolean(options, "isAnonymous")) else None
    ensures ReservedFields(options).custom == map[]
  {
  }

  /** The two halves of the user are independent: the reserved fields depend on
      the reserved entries only, and the custom attributes on the others only. */
  lemma FieldsAreIndependent(a: Options, b: Options)
    ensures (forall k :: k in NonCustomFields ==> (k in a <==> k in b) && (k in a ==> a[k] == b[k])) ==>
      ReservedFields(a) == ReservedFields(b)
    ensures (forall k :: k !in NonCustomFields ==> (k in a <==> k in b) && (k in a ==> a[k] == b[k])) ==>
      CustomAttributes(a) == CustomAttributes(b)
  {
  }

  /** A user with a key, an email, a string attribute "plan" and a number attribute "score",
      for any numeric payload of "score". */
  lemma ExampleUser(five: Number)
    ensures var options := map["key" := StringValue("u1"), "email" := StringValue("a@b.com"),
                               "plan" := StringValue("pro"), "score" := NumberValue(five)];
      UserFromOptions(options) ==
        User(JStr("u1"), Some(JStr("a@b.com")), None, None, None,
             map["plan" := StringAttribute("pro"), "score" := NumberAttribute(five)])
  {
  }
}
