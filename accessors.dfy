/**
 * The untyped-value accessors of handlers.go: safe reads from a decoded JSON object that
 * return a default (or nil) when the container is nil, the key is missing or the value has
 * another JSON type.
 */
module Accessors {
  import opened Wrappers
  import opened JsonValue

  /** `val, ok := args[key]`: a nil map holds no keys. */
  function Lookup(args: Option<Obj>, key: string): (v: Option<Json>)
    ensures v.Some? <==> args.Some? && key in args.value
    ensures v.Some? ==> v.value == args.value[key]
  {
    if args.Some? && key in args.value then Some(args.value[key]) else None
  }

  /** `getStringFromArgs`: the stored string, or `default`. */
  function GetString(args: Option<Obj>, key: string, default: string): (r: string)
    ensures Lookup(args, key).Some? && Lookup(args, key).value.JStr? ==> r == Lookup(args, key).value.str
    ensures !(Lookup(args, key).Some? && Lookup(args, key).value.JStr?) ==> r == default
  {
    match Lookup(args, key)
    case Some(JStr(s)) => s
    case _ => default
  }

  /** `getIntFromArgs`: the stored number, or `default`. */
  function GetInt(args: Option<Obj>, key: string, default: int): (r: int)
    ensures Lookup(args, key).Some? && Lookup(args, key).value.JNum? ==> r == Lookup(args, key).value.n
    ensures !(Lookup(args, key).Some? && Lookup(args, key).value.JNum?) ==> r == default
  {
    match Lookup(args, key)
    case Some(JNum(n)) => n
    case _ => default
  }

  /** `getBoolFromArgs`: the stored boolean, or `default`. */
  function GetBool(args: Option<Obj>, key: string, default: bool): (r: bool)
    ensures Lookup(args, key).Some? && Lookup(args, key).value.JBool? ==> r == Lookup(args, key).value.b
    ensures !(Lookup(args, key).Some? && Lookup(args, key).value.JBool?) ==> r == default
  {
    match Lookup(args, key)
    case Some(JBool(b)) => b
    case _ => default
  }

  /** `getMapFromArgs`: the stored object, or nil. */
  function GetMap(args: Option<Obj>, key: string): (r: Option<Obj>)
    ensures r.Some? <==> Lookup(args, key).Some? && Lookup(args, key).value.JObj?
    ensures r.Some? ==> r.value == Lookup(args, key).value.fields
  {
    match Lookup(args, key)
    case Some(JObj(m)) => Some(m)
    case _ => None
  }

  /** `getSliceFromArgs`: the stored array, or nil. */
  function GetSlice(args: Option<Obj>, key: string): (r: Option<seq<Json>>)
    ensures r.Some? <==> Lookup(args, key).Some? && Lookup(args, key).value.JArr?
    ensures r.Some? ==> r.value == Lookup(args, key).value.items
  {
    match Lookup(args, key)
    case Some(JArr(xs)) => Some(xs)
    case _ => None
  }

  /** Reading back a string just stored under a key gives that string, whatever the default. */
  lemma GetStringStored(m: Obj, key: string, s: string, default: string)
    ensures GetString(Some(m[key := JStr(s)]), key, default) == s
  {
  }

  /** A nil container yields every accessor's default. */
  lemma NilContainerDefaults(key: string, ds: string, di: int, db: bool)
    ensures GetString(None, key, ds) == ds && GetInt(None, key, di) == di && GetBool(None, key, db) == db
    ensures GetMap(None, key) == None && GetSlice(None, key) == None
  {
  }

  /**
   * `getNestedString` as a function of the remaining path: the last key must hold a string,
   * every key before it an object; an empty path gives "".
   */
  function NestedString(current: Option<Obj>, keys: seq<string>): string
    decreases |keys|
  {
    if |keys| == 0 then ""
    else if |keys| == 1 then GetString(current, keys[0], "")
    else match GetMap(current, keys[0])
      case Some(next) => NestedString(Some(next), keys[1..])
      case None => ""
  }

  /** Reference definition: follow a path of object keys from a JSON value. */
  function Walk(j: Json, keys: seq<string>): Option<Json>
    decreases |keys|
  {
    if |keys| == 0 then Some(j)
    else if j.JObj? && keys[0] in j.fields then Walk(j.fields[keys[0]], keys[1..])
    else None
  }

  /**
   * The nested lookup agrees with walking the path: it yields the string at the end of a
   * non-empty path of objects, and "" for an empty path, a nil container, a non-object
   * on the way or a non-string at the end.
   */
  lemma {:induction false} NestedStringIsWalk(obj: Option<Obj>, keys: seq<string>)
    ensures NestedString(obj, keys) ==
      if |keys| > 0 && obj.Some? && Walk(JObj(obj.value), keys).Some? && Walk(JObj(obj.value), keys).value.JStr?
      then Walk(JObj(obj.value), keys).value.str
      else ""
    decreases |keys|
  {
    if |keys| > 1 {
      match GetMap(obj, keys[0])
      case Some(next) =>
        NestedStringIsWalk(Some(next), keys[1..]);
      case None =>
    }
  }

  /** `getNestedString` as the source writes it: a loop that walks `current` down the path. */
  method GetNestedString(obj: Option<Obj>, keys: seq<string>) returns (r: string)
    ensures r == NestedString(obj, keys)
  {
    if |keys| == 0 {
      return "";
    }
    var current := obj;
    var i := 0;
    while i < |keys| - 1
      invariant 0 <= i <= |keys| - 1
      invariant NestedString(current, keys[i..]) == NestedString(obj, keys)
    {
      assert keys[i..][1..] == keys[i + 1..];
      match GetMap(current, keys[i]) {
        case None =>
          return "";
        case Some(next) =>
          current := Some(next);
      }
      i := i + 1;
    }
    r := GetString(current, keys[i], "");
  }

  /** `createdBy.username` is found in `{"createdBy":{"username":"alice"}}`. */
  lemma NestedStringFindsUsername()
    ensures NestedString(Some(map["createdBy" := JObj(map["username" := JStr("alice")])]), ["createdBy", "username"]) == "alice"
  {
  }

  /** `createdBy.username` is "" in `{"createdBy":null}` and in `{}`. */
  lemma NestedStringMisses()
    ensures NestedString(Some(map["createdBy" := JNull]), ["createdBy", "username"]) == ""
    ensures NestedString(Some(map[]), ["createdBy", "username"]) == ""
  {
  }
}
