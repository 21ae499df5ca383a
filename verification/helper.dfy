/** The two pure helpers of `Ekliptor\Wordpress\Helper`: a conditional
    update of an order's metadata, and the default options of the plugin's
    HTTP requests. */
module Helper {
  import opened Php

  /** An order's unique-key metadata. */
  type Meta = map<string, Value>

  /** `get_meta($key)` with a single value: a missing key, and a key whose
      stored value is null (WooCommerce drops null meta when reading), both
      read as "". */
  function GetMeta(meta: Meta, key: string): Value
  {
    if key in meta && meta[key] != Null then meta[key] else Str("")
  }

  /** Whether `updateOrderMeta` wrote, and the metadata afterwards. */
  datatype MetaUpdate = MetaUpdate(updated: bool, meta: Meta)

  /** `updateOrderMeta(order, key, value)`: writes `value` under `key` unless
      the current value is strictly identical (`===`) to it. */
  function UpdateOrderMeta(meta: Meta, key: string, value: Value): (u: MetaUpdate)
    // Nothing is written exactly when the current value is already `value`.
    ensures !u.updated <==> GetMeta(meta, key) == value
    ensures !u.updated ==> u.meta == meta
    ensures u.updated ==> key in u.meta && u.meta[key] == value
    // Either way, a non-null `value` is what `key` reads as afterwards.
    ensures value != Null ==> GetMeta(u.meta, key) == value
    // A null `value` never reads back, so every such call reports an update.
    ensures value == Null ==> u.updated && GetMeta(u.meta, key) == Str("")
    // No other key is added, removed or changed.
    ensures forall k :: k != key ==>
              (k in u.meta <==> k in meta) && (k in meta ==> u.meta[k] == meta[k])
  {
    if GetMeta(meta, key) == value then MetaUpdate(false, meta)
    else MetaUpdate(true, meta[key := value])
  }

  /** Repeating an update with a non-null value is a no-op: the second call
      reports no change and leaves the metadata as the first call left it. */
  lemma UpdateOrderMetaIdempotent(meta: Meta, key: string, value: Value)
    requires value != Null
    ensures var first := UpdateOrderMeta(meta, key, value);
            var second := UpdateOrderMeta(first.meta, key, value);
            !second.updated && second.meta == first.meta
  {
  }

  /** Writing null is never idempotent: every call, however often repeated,
      reports an update, because the stored null reads back as "". */
  lemma NullUpdateAlwaysReports(meta: Meta, key: string)
    ensures var first := UpdateOrderMeta(meta, key, Null);
            var second := UpdateOrderMeta(first.meta, key, Null);
            first.updated && second.updated && second.meta == first.meta
  {
  }

  /** The options passed to `wp_remote_get`/`wp_remote_post`: a timeout in
      seconds and the request headers, in order. */
  datatype HttpOptions = HttpOptions(timeout: Value, headers: seq<(string, string)>)

  const DefaultTimeout: int := 10

  /** The value of the first header with the given name. */
  function HeaderValue(headers: seq<(string, string)>, name: string): Option<string>
  {
    if |headers| == 0 then None
    else if headers[0].0 == name then Some(headers[0].1)
    else HeaderValue(headers[1..], name)
  }

  /** `getHttpOptions(options)`: the caller's timeout when set, 10 seconds
      otherwise, and always the same three JSON/no-cache headers. */
  function GetHttpOptions(options: map<string, Value>): (r: HttpOptions)
    ensures IsSet(options, "timeout") ==> r.timeout == options["timeout"]
    ensures !IsSet(options, "timeout") ==> r.timeout == Int(DefaultTimeout)
    ensures r.timeout != Null
    ensures |r.headers| == 3
    ensures HeaderValue(r.headers, "Content-Type") == Some("application/json")
    ensures HeaderValue(r.headers, "Accept") == Some("application/json")
    ensures HeaderValue(r.headers, "Cache-Control") == Some("no-cache,max-age=0")
  {
    var headers := [("Content-Type", "application/json"),
                    ("Accept", "application/json"),
                    ("Cache-Control", "no-cache,max-age=0")];
    assert headers[1..][1..] == [headers[2]];
    HttpOptions(if IsSet(options, "timeout") then options["timeout"] else Int(DefaultTimeout), headers)
  }

  /** The headers do not depend on the options, and only the `timeout` entry
      of the options matters at all. */
  lemma HttpOptionsDependOnlyOnTimeout(o1: map<string, Value>, o2: map<string, Value>)
    ensures GetHttpOptions(o1).headers == GetHttpOptions(o2).headers
    ensures IsSet(o1, "timeout") == IsSet(o2, "timeout") &&
            (IsSet(o1, "timeout") ==> o1["timeout"] == o2["timeout"]) ==>
              GetHttpOptions(o1) == GetHttpOptions(o2)
  {
  }
}
