/**
 * The helpers of archetype.functions.php that make decisions: the MIME-type
 * to extension table, the slash rewrite `at_ajax_response` applies to encoded
 * JSON, and `hm_get_template_part`'s derivation of cache arguments from the
 * template arguments together with its object-cache gate.
 *
 * An ordered PHP array with string keys is an `Assoc`: a sequence of key and
 * value pairs in insertion order, where assigning to a present key replaces
 * its value in place and assigning to a new key appends. `serialize` of such
 * an array is taken to be the array itself, since the cache key it makes is
 * determined by the keys, the values and their order.
 */
module Functions {
  import opened Php

  /** `$types` in `at_get_mime_type_ext`. */
  const MimeTypes: map<string, string> := map["image/jpeg" := "jpg", "image/png" := "png"]

  /** `at_get_mime_type_ext($mime_type)`: the table entry, or null (with a notice) for any type not in it. */
  function MimeTypeExt(mimeType: string): (r: Value)
    ensures mimeType == "image/jpeg" <==> r == Str("jpg")
    ensures mimeType == "image/png" <==> r == Str("png")
    ensures mimeType != "image/jpeg" && mimeType != "image/png" <==> r == Null
  {
    if mimeType in MimeTypes then Str(MimeTypes[mimeType]) else Null
  }

  // ---------------------------------------------------------------------------
  // at_ajax_response

  /**
   * `str_replace('\/', '/', $json)`: scanning left to right, every backslash
   * directly followed by a slash is dropped; every other character is kept.
   */
  function AjaxResponseText(json: string): (r: string)
    ensures |r| <= |json|
  {
    if |json| < 2 then json
    else if json[0] == '\\' && json[1] == '/' then "/" + AjaxResponseText(json[2..])
    else [json[0]] + AjaxResponseText(json[1..])
  }

  /** Text without a backslash directly before a slash comes out unchanged. */
  lemma {:induction false} NoEscapedSlashUnchanged(json: string)
    requires forall i :: 0 <= i < |json| - 1 ==> !(json[i] == '\\' && json[i + 1] == '/')
    ensures AjaxResponseText(json) == json
  {
    if |json| >= 2 {
      NoEscapedSlashUnchanged(json[1..]);
      assert [json[0]] + json[1..] == json;
    }
  }

  /** A rewrite of already rewritten text can go further: the rewrite is not idempotent. */
  lemma AjaxResponseTextNotIdempotent()
    ensures AjaxResponseText("\\\\/") == "\\/"
    ensures AjaxResponseText(AjaxResponseText("\\\\/")) == "/"
  {
    assert AjaxResponseText("\\/") == "/";
    assert AjaxResponseText("\\\\/") == "\\" + AjaxResponseText("\\/");
  }

  /**
   * The escape `json_encode` writes for one character of a string: a slash is
   * escaped only when `slashes` is set (PHP's default; JSON_UNESCAPED_SLASHES
   * clears it). `\uXXXX` escapes are not modelled; none contains a slash or
   * ends in a backslash.
   */
  function EscapeChar(c: char, slashes: bool): (e: string)
    ensures |e| > 0 && (slashes ==> e[0] != '/')
    ensures c == '/' ==> e == (if slashes then "\\/" else "/")
  {
    if c == '\\' then "\\\\"
    else if c == '/' then (if slashes then "\\/" else "/")
    else if c == '"' then "\\\""
    else if c == '\n' then "\\n"
    else if c == '\r' then "\\r"
    else if c == '\t' then "\\t"
    else [c]
  }

  /** The body of the JSON string literal `json_encode` makes of a string. */
  function JsonBody(t: string, slashes: bool): (r: string)
    ensures slashes && r != [] ==> r[0] != '/'
  {
    if t == [] then [] else EscapeChar(t[0], slashes) + JsonBody(t[1..], slashes)
  }

  /** `json_encode` of a string. */
  function JsonString(t: string, slashes: bool): string
  {
    "\"" + JsonBody(t, slashes) + "\""
  }

  /** One step of the scan where the text does not start with an escaped slash. */
  lemma StepKeep(s: string)
    requires |s| >= 1 && !(|s| >= 2 && s[0] == '\\' && s[1] == '/')
    ensures AjaxResponseText(s) == [s[0]] + AjaxResponseText(s[1..])
  {
    if |s| == 1 {
      assert s == [s[0]] + [];
    }
  }

  /** A character other than a backslash passes through the rewrite untouched. */
  lemma RewriteKeeps(c: char, rest: string)
    requires c != '\\'
    ensures AjaxResponseText([c] + rest) == [c] + AjaxResponseText(rest)
  {
    var s := [c] + rest;
    StepKeep(s);
    assert s[1..] == rest;
  }

  /** A backslash passes through when what follows it does not start with a slash. */
  lemma RewriteKeepsBackslash(rest: string)
    requires rest == [] || rest[0] != '/'
    ensures AjaxResponseText(['\\'] + rest) == ['\\'] + AjaxResponseText(rest)
  {
    var s := ['\\'] + rest;
    StepKeep(s);
    assert s[1..] == rest;
  }

  /** A two-character escape other than an escaped slash passes through untouched. */
  lemma RewriteKeepsEscape(x: char, rest: string)
    requires x != '\\' && x != '/'
    ensures AjaxResponseText(['\\', x] + rest) == ['\\', x] + AjaxResponseText(rest)
  {
    var s := ['\\', x] + rest;
    StepKeep(s);
    assert s[1..] == [x] + rest;
    RewriteKeeps(x, rest);
  }

  /** An escaped slash loses its backslash. */
  lemma RewriteEscapedSlash(rest: string)
    ensures AjaxResponseText(['\\', '/'] + rest) == ['/'] + AjaxResponseText(rest)
  {
    var s := ['\\', '/'] + rest;
    assert s[2..] == rest;
  }

  /** An escaped backslash passes through when what follows does not start with a slash. */
  lemma RewriteEscapedBackslash(rest: string)
    requires rest == [] || rest[0] != '/'
    ensures AjaxResponseText(['\\', '\\'] + rest) == ['\\', '\\'] + AjaxResponseText(rest)
  {
    var t := ['\\'] + rest;
    RewriteKeepsBackslash(rest);
    KeepBackslashBeforeBackslash(t);
    assert ['\\'] + t == ['\\', '\\'] + rest;
  }

  lemma KeepBackslashBeforeBackslash(t: string)
    requires |t| >= 1 && t[0] == '\\'
    ensures AjaxResponseText(['\\'] + t) == ['\\'] + AjaxResponseText(t)
  {
    var s := ['\\'] + t;
    StepKeep(s);
    assert s[1..] == t;
  }

  /** Rewriting one escaped character, followed by text that does not start with a slash. */
  lemma RewriteEscapeChar(c: char, rest: string)
    requires rest == [] || rest[0] != '/'
    ensures AjaxResponseText(EscapeChar(c, true) + rest) == EscapeChar(c, false) + AjaxResponseText(rest)
  {
    if c == '/' {
      RewriteEscapedSlash(rest);
    } else if c == '\\' {
      RewriteEscapedBackslash(rest);
    } else if c == '"' {
      RewriteKeepsEscape('"', rest);
    } else if c == '\n' {
      RewriteKeepsEscape('n', rest);
    } else if c == '\r' {
      RewriteKeepsEscape('r', rest);
    } else if c == '\t' {
      RewriteKeepsEscape('t', rest);
    } else {
      RewriteKeeps(c, rest);
    }
  }

  lemma {:induction false} RewriteJsonBody(t: string, rest: string)
    requires rest == [] || rest[0] != '/'
    ensures AjaxResponseText(JsonBody(t, true) + rest) == JsonBody(t, false) + AjaxResponseText(rest)
    decreases |t|
  {
    if t == [] {
      assert JsonBody(t, true) + rest == rest;
      assert JsonBody(t, false) + AjaxResponseText(rest) == AjaxResponseText(rest);
    } else {
      var body := JsonBody(t[1..], true);
      var tail := body + rest;
      assert tail == [] || tail[0] != '/' by {
        if body != [] {
          assert tail[0] == body[0];
        }
      }
      RewriteJsonBody(t[1..], rest);
      RewriteEscapeChar(t[0], tail);
      var e, e' := EscapeChar(t[0], true), EscapeChar(t[0], false);
      assert JsonBody(t, true) + rest == e + tail;
      AppendAssoc(e', JsonBody(t[1..], false), AjaxResponseText(rest));
    }
  }


  /**
   * The rewrite of an encoded string is the encoding with unescaped slashes:
   * it never corrupts an escaped backslash that happens to precede a slash.
   */
  lemma RewriteUnescapesSlashes(t: string)
    ensures AjaxResponseText(JsonString(t, true)) == JsonString(t, false)
  {
    RewriteJsonBody(t, "\"");
    RewriteKeeps('"', JsonBody(t, true) + "\"");
    assert JsonString(t, true) == ['"'] + (JsonBody(t, true) + "\"");
    assert JsonString(t, false) == ['"'] + (JsonBody(t, false) + "\"");
  }

  // ---------------------------------------------------------------------------
  // Ordered arrays

  type Assoc = seq<(string, Value)>

  /** The position of a key in an ordered array: its first occurrence. */
  function AssocIndex(a: Assoc, k: string): (r: Option<nat>)
    ensures r.Some? ==> r.value < |a| && a[r.value].0 == k && forall j :: 0 <= j < r.value ==> a[j].0 != k
    ensures r.None? ==> forall j :: 0 <= j < |a| ==> a[j].0 != k
  {
    if a == [] then None
    else if a[0].0 == k then Some(0)
    else match AssocIndex(a[1..], k)
      case None => None
      case Some(j) => Some(j + 1)
  }

  /** `$a[$k]`, or None when the key is absent. */
  function AssocGet(a: Assoc, k: string): Option<Value>
  {
    match AssocIndex(a, k)
    case None => None
    case Some(i) => Some(a[i].1)
  }

  /** `$a[$k] = $v`: replace in place, or append a new key. */
  function AssocSet(a: Assoc, k: string, v: Value): (r: Assoc)
    ensures |r| >= |a| && |r| >= 1
  {
    match AssocIndex(a, k)
    case None => a + [(k, v)]
    case Some(i) => a[i := (k, v)]
  }

  /** `$a[$k] = $v` removes no key. */
  lemma AssocSetKeepsKeys(a: Assoc, k: string, v: Value)
    ensures forall j :: AssocGet(a, j).Some? ==> AssocGet(AssocSet(a, k, v), j).Some?
  {
    forall j | AssocGet(a, j).Some?
      ensures AssocGet(AssocSet(a, k, v), j).Some?
    {
      AssocSetGet(a, k, v, j);
    }
  }

  /** After `$a[$k] = $v`, reading `$k` gives `$v` and every other key reads as before. */
  lemma AssocSetGet(a: Assoc, k: string, v: Value, j: string)
    ensures AssocGet(AssocSet(a, k, v), k) == Some(v)
    ensures j != k ==> AssocGet(AssocSet(a, k, v), j) == AssocGet(a, j)
  {
    var r := AssocSet(a, k, v);
    var ix := AssocIndex(a, k);
    if ix.None? {
      IndexFirst(r, k, |a|);
      if AssocIndex(a, j).Some? {
        IndexFirst(r, j, AssocIndex(a, j).value);
      }
    } else {
      IndexFirst(r, k, ix.value);
      if AssocIndex(a, j).Some? {
        IndexFirst(r, j, AssocIndex(a, j).value);
      }
    }
  }

  /** The first position holding a key is the one `AssocIndex` finds. */
  lemma IndexFirst(a: Assoc, k: string, i: nat)
    requires i < |a| && a[i].0 == k
    requires forall j :: 0 <= j < i ==> a[j].0 != k
    ensures AssocIndex(a, k) == Some(i)
  {
  }

  // ---------------------------------------------------------------------------
  // hm_get_template_part

  /** A template argument: a PHP value, or an object that may have a `get_id` method. */
  datatype TemplateArg = Plain(v: Value) | Object(getId: Option<Value>)

  /** What the loop copies into the cache args for one template argument, if anything. */
  function Copied(arg: TemplateArg): (r: Option<Value>)
    ensures arg.Plain? ==> (r.Some? <==> IsScalar(arg.v) || IsArray(arg.v))
    ensures arg.Plain? && r.Some? ==> r.value == arg.v
    ensures arg.Object? ==> r == arg.getId
  {
    match arg
    case Plain(v) => if IsScalar(v) || IsArray(v) then Some(v) else None
    case Object(getId) => getId
  }

  /** The cache args after the loop has seen the given template args. */
  function CacheArgsFor(cacheArgs: Assoc, templateArgs: seq<(string, TemplateArg)>): (r: Assoc)
    ensures |r| >= |cacheArgs|
    ensures forall k :: AssocGet(cacheArgs, k).Some? ==> AssocGet(r, k).Some?
    decreases |templateArgs|
  {
    if templateArgs == [] then cacheArgs
    else
      var init := CacheArgsFor(cacheArgs, templateArgs[..|templateArgs| - 1]);
      var (k, arg) := templateArgs[|templateArgs| - 1];
      match Copied(arg)
      case None => init
      case Some(v) => AssocSetKeepsKeys(init, k, v); AssocSet(init, k, v)
  }

  /** The value the last template arg under a key contributes, if any contributes one. */
  function LastCopied(templateArgs: seq<(string, TemplateArg)>, k: string): Option<Value>
    decreases |templateArgs|
  {
    if templateArgs == [] then None
    else
      var (key, arg) := templateArgs[|templateArgs| - 1];
      if key == k && Copied(arg).Some? then Copied(arg) else LastCopied(templateArgs[..|templateArgs| - 1], k)
  }

  /**
   * Every key of the derived cache args holds the value of the last template
   * arg under that key that is copied (a scalar or array as is, an object as
   * its id), and otherwise its original cache arg.
   */
  lemma {:induction false} CacheArgsLookup(cacheArgs: Assoc, templateArgs: seq<(string, TemplateArg)>, k: string)
    ensures AssocGet(CacheArgsFor(cacheArgs, templateArgs), k) ==
      if LastCopied(templateArgs, k).Some? then LastCopied(templateArgs, k) else AssocGet(cacheArgs, k)
    decreases |templateArgs|
  {
    if templateArgs != [] {
      var init := templateArgs[..|templateArgs| - 1];
      var (key, arg) := templateArgs[|templateArgs| - 1];
      CacheArgsLookup(cacheArgs, init, k);
      if Copied(arg).Some? {
        AssocSetGet(CacheArgsFor(cacheArgs, init), key, Copied(arg).value, k);
      }
    }
  }

  /** Arguments that are neither scalar, array nor object with `get_id` leave the cache args as they are. */
  lemma SkippedArgsChangeNothing(cacheArgs: Assoc, templateArgs: seq<(string, TemplateArg)>)
    requires forall i :: 0 <= i < |templateArgs| ==> Copied(templateArgs[i].1).None?
    ensures CacheArgsFor(cacheArgs, templateArgs) == cacheArgs
    decreases |templateArgs|
  {
    if templateArgs != [] {
      SkippedArgsChangeNothing(cacheArgs, templateArgs[..|templateArgs| - 1]);
    }
  }

  /** The keys of a PHP array are distinct. */
  predicate UniqueKeys<T>(a: seq<(string, T)>)
  {
    forall i, j :: 0 <= i < j < |a| ==> a[i].0 != a[j].0
  }

  /** `! empty( $template_args['return'] )`; an object is never empty. */
  predicate ReturnRequested(templateArgs: seq<(string, TemplateArg)>): (b: bool)
    ensures (forall i :: 0 <= i < |templateArgs| ==> templateArgs[i].0 != "return") ==> !b
    ensures UniqueKeys(templateArgs) ==> forall i :: 0 <= i < |templateArgs| && templateArgs[i].0 == "return" ==>
      (b <==> templateArgs[i].1.Object? || Truthy(templateArgs[i].1.v))
  {
    exists i :: 0 <= i < |templateArgs| && templateArgs[i].0 == "return" &&
      (forall j :: 0 <= j < i ==> templateArgs[j].0 != "return") &&
      match templateArgs[i].1
      case Plain(v) => Truthy(v)
      case Object(_) => true
  }

  /** What `hm_get_template_part` ends with: echoing text, or returning a value. */
  datatype TemplateResult = Echoed(text: string) | Gave(value: Value)

  /** The end of a rendering: return the output or the template's `false`, or echo the output. */
  function Rendered(data: string, requireResult: Value, returnRequested: bool): (r: TemplateResult)
    ensures !returnRequested ==> r == Echoed(data)
    ensures returnRequested && requireResult == Bool(false) ==> r == Gave(Bool(false))
    ensures returnRequested && requireResult != Bool(false) ==> r == Gave(Str(data))
  {
    if returnRequested then
      if requireResult == Bool(false) then Gave(Bool(false)) else Gave(Str(data))
    else Echoed(data)
  }

  /** The end of a cache hit: the cached text, returned or echoed. */
  function FromCache(cached: string, returnRequested: bool): (r: TemplateResult)
    ensures returnRequested <==> r == Gave(Str(cached))
    ensures !returnRequested <==> r == Echoed(cached)
  {
    if returnRequested then Gave(Str(cached)) else Echoed(cached)
  }

  /** The expiry, in seconds, of a rendering stored in the cache. */
  const CacheExpiry := 3600

  datatype CacheEntry = CacheEntry(data: string, expire: int)

  /**
   * The foreach of `hm_get_template_part`: scalar or array args are copied
   * under their key, objects with `get_id` are stored as their id, and
   * anything else is skipped.
   */
  method DeriveCacheArgs(cacheArgs: Assoc, templateArgs: seq<(string, TemplateArg)>) returns (c: Assoc)
    requires UniqueKeys(cacheArgs) && UniqueKeys(templateArgs)
    ensures c == CacheArgsFor(cacheArgs, templateArgs)
  {
    c := cacheArgs;
    for i := 0 to |templateArgs|
      invariant c == CacheArgsFor(cacheArgs, templateArgs[..i])
    {
      var (key, value) := templateArgs[i];
      assert templateArgs[..i + 1][..i] == templateArgs[..i];
      if value.Plain? && (IsScalar(value.v) || IsArray(value.v)) {
        c := AssocSet(c, key, value.v);
      } else if value.Object? && value.getId.Some? {
        c := AssocSet(c, key, value.getId.value);
      }
    }
    assert templateArgs[..|templateArgs|] == templateArgs;
  }

  /** The WordPress object cache: entries by key and group. */
  class ObjectCache {
    var entries: map<(string, Assoc), CacheEntry>

    constructor ()
      ensures entries == map[]
    {
      entries := map[];
    }

    /**
     * `hm_get_template_part($file, $template_args, $cache_args)`. The template
     * file's output and the value its `require` returns are inputs. With empty
     * cache args the cache is neither read nor written; otherwise a hit is
     * served from the cache, and a miss renders and stores the output for an
     * hour under the derived cache args.
     */
    method GetTemplatePart(file: string, templateArgs: seq<(string, TemplateArg)>, cacheArgs: Assoc,
                           output: string, requireResult: Value) returns (r: TemplateResult)
      requires UniqueKeys(cacheArgs) && UniqueKeys(templateArgs)
      modifies this
      ensures cacheArgs == [] ==>
        entries == old(entries) && r == Rendered(output, requireResult, ReturnRequested(templateArgs))
      ensures var key := (file, CacheArgsFor(cacheArgs, templateArgs));
        cacheArgs != [] && key in old(entries) ==>
          entries == old(entries) && r == FromCache(old(entries)[key].data, ReturnRequested(templateArgs))
      ensures var key := (file, CacheArgsFor(cacheArgs, templateArgs));
        cacheArgs != [] && key !in old(entries) ==>
          entries == old(entries)[key := CacheEntry(output, CacheExpiry)]
          && r == Rendered(output, requireResult, ReturnRequested(templateArgs))
    {
      var args := cacheArgs;
      var returnRequested := ReturnRequested(templateArgs);
      if args != [] {
        args := DeriveCacheArgs(cacheArgs, templateArgs);
        if (file, args) in entries {
          return FromCache(entries[(file, args)].data, returnRequested);
        }
      }
      if args != [] {
        entries := entries[(file, args) := CacheEntry(output, CacheExpiry)];
      }
      r := Rendered(output, requireResult, returnRequested);
    }
  }
}
