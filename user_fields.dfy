/**
 * The user-profile fields of archetype.users.admin.php: `Archetype_User_Field`
 * and its admin, frontend and admin-checkbox subclasses. A field merges its
 * options over fixed defaults, hooks itself into the signup form and/or the
 * profile pages, reads its posted value, and saves that value to user meta
 * behind a capability gate.
 *
 * `$_POST` is a string-keyed map, `sanitize_text_field` an abstract function,
 * `current_user_can` an `Actor` value, and a validation callable other than
 * WordPress's `__return_true` an abstract oracle.
 */
module UserFields {
  import opened Php
  import opened UserMeta

  /** AT_USER_NONCE, the nonce action of the profile forms. */
  const UserNonce := "_at_update_user_profile"

  /** WordPress's callable that always returns true, the default validator. */
  const ReturnTrue := "__return_true"

  const FieldDefaults: map<string, Value> := map[
    "validation" := Str(ReturnTrue),
    "required_for_signup" := Bool(false),
    "show_in_signup" := Bool(false),
    "signup_only" := Bool(false),
    "hidden" := Bool(false)]

  /** The concrete field classes: their `attach_hooks` differ, and the checkbox overrides `save`. */
  datatype Kind = AdminText | FrontendText | AdminCheckbox

  /** The actions `attach_hooks` adds for each class. */
  function HooksFor(k: Kind): (hooks: set<string>)
    ensures k == FrontendText ==> hooks == {"at_show_frontend_fields", "at_save_frontend_fields"}
    ensures k != FrontendText ==> {"personal_options_update", "edit_user_profile_update"} <= hooks && |hooks| == 4
  {
    match k
    case FrontendText => {"at_show_frontend_fields", "at_save_frontend_fields"}
    case _ => {"show_user_profile", "edit_user_profile", "personal_options_update", "edit_user_profile_update"}
  }

  /** The acting user, as `current_user_can` sees them: whom they may edit, and whether they are an administrator. */
  datatype Actor = Actor(editable: set<UserId>, administrator: bool)

  predicate MaySave(actor: Actor, u: UserId)
  {
    u in actor.editable && actor.administrator
  }

  /** `call_user_func($callable, $input)`: `__return_true` answers true; any other callable answers what the oracle says. */
  function CallValidator(callable: Value, input: Value, validator: (Value, Value) -> Value): Value
  {
    if callable == Str(ReturnTrue) then Bool(true) else validator(callable, input)
  }

  class UserField {
    const kind: Kind
    const name: string
    const slug: string
    const desc: string
    const metaKey: string
    const opts: map<string, Value>
    /** Whether the constructor added the field to the at_signup_fields filter. */
    const signupRegistered: bool
    /** The actions the constructor's `attach_hooks` added. */
    const hooks: set<string>

    constructor (kind: Kind, name: string, description: string, metaKey: string, opts: map<string, Value>)
      ensures this.kind == kind && this.name == name && desc == description
      ensures slug == metaKey && this.metaKey == metaKey
      ensures this.opts == ParseArgs(opts, FieldDefaults)
      ensures signupRegistered <==> Truthy(this.opts["show_in_signup"]) || Truthy(this.opts["signup_only"])
      ensures hooks == if Truthy(this.opts["signup_only"]) then {} else HooksFor(kind)
    {
      this.kind := kind;
      this.name := name;
      slug := metaKey;
      desc := description;
      var merged := ParseArgs(opts, FieldDefaults);
      this.opts := merged;
      this.metaKey := metaKey;
      signupRegistered := Truthy(merged["show_in_signup"]) || Truthy(merged["signup_only"]);
      hooks := if !Truthy(merged["signup_only"]) then HooksFor(kind) else {};
    }

    /** `get_posted_value`: the posted value under the slug, or false when it is not set. */
    function GetPostedValue(post: map<string, Value>): (v: Value)
      ensures Isset(post, slug) ==> v == post[slug]
      ensures !Isset(post, slug) ==> v == Bool(false)
    {
      if Isset(post, slug) then post[slug] else Bool(false)
    }

    /** `is_valid($input)`: the configured validation callable applied to the input. */
    function IsValid(input: Value, validator: (Value, Value) -> Value): (r: Value)
      ensures Lookup(opts, "validation") == Str(ReturnTrue) ==> r == Bool(true)
      ensures Lookup(opts, "validation") != Str(ReturnTrue) ==> r == validator(Lookup(opts, "validation"), input)
    {
      CallValidator(Lookup(opts, "validation"), input, validator)
    }

    /** The single meta write `save` performs for this field, or None when it writes nothing. */
    function PlannedWrite(actor: Actor, u: UserId, post: map<string, Value>, sanitize: Value -> string,
                          validator: (Value, Value) -> Value): Option<Value>
    {
      if !MaySave(actor, u) then None
      else if kind == AdminCheckbox then
        if !Isset(post, metaKey) then Some(Str("0")) else Some(Str(sanitize(post[metaKey])))
      else
        var value := Str(sanitize(Lookup(post, metaKey)));
        if Truthy(IsValid(value, validator)) then Some(value) else None
    }

    /**
     * `save($user_id)` (the checkbox class's override for AdminCheckbox): at
     * most one write, to this field's meta key of that user; returns false when
     * it wrote nothing and null when it wrote.
     */
    method Save(u: UserId, actor: Actor, post: map<string, Value>, sanitize: Value -> string,
                validator: (Value, Value) -> Value, store: MetaStore) returns (r: Value)
      modifies store
      ensures PlannedWrite(actor, u, post, sanitize, validator).None? ==>
        store.meta == old(store.meta) && r == Bool(false)
      ensures PlannedWrite(actor, u, post, sanitize, validator).Some? ==>
        store.meta == old(store.meta)[u := old(store.Row(u))[metaKey := PlannedWrite(actor, u, post, sanitize, validator).value]]
        && r == Null
    {
      if !(u in actor.editable) || !actor.administrator {
        return Bool(false);
      }
      if kind == AdminCheckbox {
        if !Isset(post, metaKey) {
          store.Update(u, metaKey, Str("0"));
          return Null;
        }
        var value := Str(sanitize(post[metaKey]));
        store.Update(u, metaKey, value);
        return Null;
      }
      var value := Str(sanitize(Lookup(post, metaKey)));
      var valid := CallValidator(Lookup(opts, "validation"), value, validator);
      if !Truthy(valid) {
        return Bool(false);
      }
      store.Update(u, metaKey, value);
      r := Null;
    }
  }

  /** Nothing is written unless the actor may edit the target user and is an administrator. */
  lemma SaveNeedsBothCapabilities(f: UserField, actor: Actor, u: UserId, post: map<string, Value>,
                                  sanitize: Value -> string, validator: (Value, Value) -> Value)
    ensures f.PlannedWrite(actor, u, post, sanitize, validator).Some? ==> u in actor.editable && actor.administrator
  {
  }

  /** A text field writes the sanitized posted value, and only when its validator answers truthy. */
  lemma TextSaveWritesOnlyValidated(f: UserField, actor: Actor, u: UserId, post: map<string, Value>,
                                    sanitize: Value -> string, validator: (Value, Value) -> Value)
    requires f.kind != AdminCheckbox && MaySave(actor, u)
    ensures var value := Str(sanitize(Lookup(post, f.metaKey)));
      f.PlannedWrite(actor, u, post, sanitize, validator) == if Truthy(f.IsValid(value, validator)) then Some(value) else None
  {
  }

  /** With the default validator a permitted text save always writes. */
  lemma DefaultValidatorAlwaysWrites(f: UserField, actor: Actor, u: UserId, post: map<string, Value>,
                                     sanitize: Value -> string, validator: (Value, Value) -> Value)
    requires f.kind != AdminCheckbox && MaySave(actor, u) && Lookup(f.opts, "validation") == Str(ReturnTrue)
    ensures f.PlannedWrite(actor, u, post, sanitize, validator) == Some(Str(sanitize(Lookup(post, f.metaKey))))
  {
  }

  /** A checkbox writes '0' when its key is not posted and the sanitized value otherwise; its validator is never consulted. */
  lemma CheckboxSaveIgnoresValidator(f: UserField, actor: Actor, u: UserId, post: map<string, Value>,
                                     sanitize: Value -> string, v1: (Value, Value) -> Value, v2: (Value, Value) -> Value)
    requires f.kind == AdminCheckbox && MaySave(actor, u)
    ensures f.PlannedWrite(actor, u, post, sanitize, v1) == f.PlannedWrite(actor, u, post, sanitize, v2)
    ensures !Isset(post, f.metaKey) ==> f.PlannedWrite(actor, u, post, sanitize, v1) == Some(Str("0"))
    ensures Isset(post, f.metaKey) ==> f.PlannedWrite(actor, u, post, sanitize, v1) == Some(Str(sanitize(post[f.metaKey])))
  {
  }
}
