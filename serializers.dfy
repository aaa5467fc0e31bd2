/**
 * The API serializers' handling of post-only fields (fields that can be
 * set when an object is created and never changed afterwards) and of the
 * password of objects that have one.
 *
 * Validated data is a map from attribute names to values.
 */
module Serializers {

  import opened Common

  /** `validated_data` without the post-only attributes. */
  function Cleaned<V>(data: map<string, V>, postonly: set<string>): (attrs: map<string, V>)
    ensures attrs.Keys == data.Keys - postonly
    ensures forall k :: k in attrs ==> attrs[k] == data[k]
  {
    map k | k in data && k !in postonly :: data[k]
  }

  /**
   * `post_only_cleanning`. Without an instance (a create) the attributes
   * are copied as they are. With one, every attribute named in
   * `Meta.postonly_fields` is dropped; `postonly` is None when `Meta` has
   * no such attribute, which fails as soon as there is an attribute to
   * check. The input map is a value, so it cannot be changed.
   */
  method PostOnlyCleaning<V>(hasInstance: bool, postonly: Option<set<string>>, data: map<string, V>)
    returns (r: Result<map<string, V>, string>)
    ensures !hasInstance ==> r == Ok(data)
    ensures hasInstance && data == map[] ==> r == Ok(data)
    ensures hasInstance && data != map[] && postonly.None? ==>
      r == Err("type object 'Meta' has no attribute 'postonly_fields'")
    ensures hasInstance && postonly.Some? ==> r == Ok(Cleaned(data, postonly.value))
  {
    var attrs := data;
    if hasInstance {
      var pending := data.Keys;
      while pending != {}
        invariant pending <= data.Keys
        invariant pending != data.Keys ==> postonly.Some?
        invariant postonly.Some? ==>
          attrs == map k | k in data && (k in pending || k !in postonly.value) :: data[k]
        invariant postonly.None? ==> attrs == data
        decreases pending
      {
        var attr :| attr in pending;
        if postonly.None? {
          return Err("type object 'Meta' has no attribute 'postonly_fields'");
        }
        if attr in postonly.value {
          attrs := map k | k in attrs && k != attr :: attrs[k];
        }
        pending := pending - {attr};
      }
      if postonly.Some? {
        assert attrs == Cleaned(data, postonly.value);
      }
    }
    return Ok(attrs);
  }

  /**
   * Applying cleaned attributes to an object's fields never adds, removes
   * or changes a post-only field, and sets every other given attribute.
   */
  lemma CleanedKeepsPostOnly<V>(fields: map<string, V>, data: map<string, V>, postonly: set<string>)
    ensures var after := fields + Cleaned(data, postonly);
      && (forall k :: k in postonly ==> (k in after <==> k in fields))
      && (forall k :: k in postonly && k in fields ==> after[k] == fields[k])
      && (forall k :: k in data && k !in postonly ==> k in after && after[k] == data[k])
  {
  }

  /** Cleaning is idempotent, and what it drops is exactly the post-only attributes. */
  lemma CleanedIdempotent<V>(data: map<string, V>, postonly: set<string>)
    ensures Cleaned(Cleaned(data, postonly), postonly) == Cleaned(data, postonly)
    ensures forall k :: k in data ==> (k in Cleaned(data, postonly) <==> k !in postonly)
  {
  }

  /** A model object, with its field values. */
  class Instance<V> {
    var fields: map<string, V>

    constructor (fields: map<string, V>)
      ensures this.fields == fields
    {
      this.fields := fields;
    }

    /** The base serializer's update: every given attribute is set on the object. */
    method SetAttributes(attrs: map<string, V>)
      modifies this
      ensures fields == old(fields) + attrs
    {
      fields := fields + attrs;
    }

    /** `update`: only the cleaned attributes reach the base serializer. */
    method Update(postonly: Option<set<string>>, data: map<string, V>) returns (ok: bool)
      modifies this
      ensures ok <==> postonly.Some? || data == map[]
      ensures ok && postonly.Some? ==> fields == old(fields) + Cleaned(data, postonly.value)
      ensures ok && postonly.None? ==> fields == old(fields)
      ensures !ok ==> fields == old(fields)
    {
      var attrs := PostOnlyCleaning(true, postonly, data);
      if attrs.Err? {
        return false;
      }
      SetAttributes(attrs.value);
      return true;
    }

    /** `partial_update`: the same cleaning before the base serializer's partial update. */
    method PartialUpdate(postonly: Option<set<string>>, data: map<string, V>) returns (ok: bool)
      modifies this
      ensures ok <==> postonly.Some? || data == map[]
      ensures ok && postonly.Some? ==> fields == old(fields) + Cleaned(data, postonly.value)
      ensures ok && postonly.None? ==> fields == old(fields)
      ensures !ok ==> fields == old(fields)
    {
      var attrs := PostOnlyCleaning(true, postonly, data);
      if attrs.Err? {
        return false;
      }
      SetAttributes(attrs.value);
      return true;
    }
  }

  /**
   * `validate_password`: a password may be given only when creating, and
   * must be given then; accepted attributes come back unchanged.
   */
  function ValidatePassword<V>(hasInstance: bool, attrs: map<string, V>): (r: Result<map<string, V>, string>)
    ensures r.Ok? <==> (hasInstance <==> "password" !in attrs)
    ensures r.Ok? ==> r.value == attrs
    ensures hasInstance && r.Err? ==> r.error == "Can not set password"
    ensures !hasInstance && r.Err? ==> r.error == "Password required"
  {
    if hasInstance then
      if "password" in attrs then Err("Can not set password") else Ok(attrs)
    else if "password" !in attrs then Err("Password required")
    else Ok(attrs)
  }
}
