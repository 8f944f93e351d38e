/**
 * The option handling of `start` (src/index.ts:48-75): the defaults, the
 * merge of the caller's options over them, the drain deadline it records,
 * the address it binds and the message it prints once listening.
 */
module Options {
  import opened JsValues

  const DefaultPort: int := 3000
  const DefaultTimeout: int := 1000

  /** `defaultOptions`: a port and a timeout, no host. */
  const DefaultOptions: Object := map["port" := Num(DefaultPort), "timeout" := Num(DefaultTimeout)]

  const Banner: string := "Server listening on http://"

  /** `{ ...defaultOptions, ...options }`, where an omitted options argument spreads nothing. */
  function Merge(options: Option<Object>): (r: Object)
    ensures forall k :: Get(r, k) == if options.Some? && k in options.value then options.value[k] else Get(DefaultOptions, k)
  {
    Spread(DefaultOptions, if options.Some? then options.value else map[])
  }

  /** The three names `start` destructures from the merged options. */
  datatype Settings = Settings(host: Value, port: Value, timeout: Value)

  /** `const { host, port, timeout } = { ...defaultOptions, ...options }`: each is the
      caller's property when the options have it (even if it is `undefined`), else
      the default, and there is no default host. */
  function Effective(options: Option<Object>): (e: Settings)
    ensures e.host == if options.Some? && "host" in options.value then options.value["host"] else Undefined
    ensures e.port == if options.Some? && "port" in options.value then options.value["port"] else Num(DefaultPort)
    ensures e.timeout == if options.Some? && "timeout" in options.value then options.value["timeout"] else Num(DefaultTimeout)
  {
    var merged := Merge(options);
    Settings(Get(merged, "host"), Get(merged, "port"), Get(merged, "timeout"))
  }

  /** The drain deadline after `start`: the merged timeout when it is a number, the
      previous deadline otherwise. An options object without a timeout property
      gets the default, so only an explicit `undefined` keeps the previous value. */
  function NextTimeout(current: int, options: Option<Object>): (t: int)
    ensures options.None? || "timeout" !in options.value ==> t == DefaultTimeout
    ensures options.Some? && "timeout" in options.value ==>
      t == match options.value["timeout"] case Num(n) => n case _ => current
  {
    var timeout := Effective(options).timeout;
    if timeout.Num? then timeout.n else current
  }

  /** The host handed to `app.listen`: the merged host when it is truthy; otherwise
      the listener is bound without one. */
  function BindHost(options: Option<Object>): (h: Option<Value>)
    ensures h.Some? <==> options.Some? && "host" in options.value && Truthy(options.value["host"])
    ensures h.Some? ==> h.value == options.value["host"]
  {
    var host := Effective(options).host;
    if Truthy(host) then Some(host) else None
  }

  /** The line printed once the listener is bound. */
  function ListeningMessage(options: Option<Object>): (msg: string)
    ensures var port := Effective(options).port;
      BindHost(options).None? ==> msg == Banner + "localhost:" + Show(port)
    ensures var port := Effective(options).port;
      BindHost(options).Some? ==>
        msg == Banner + Show(BindHost(options).value) + ":" + Show(port)
               + " (bound to host: " + Show(BindHost(options).value) + ")"
  {
    var settings := Effective(options);
    var message := Banner + Show(if Truthy(settings.host) then settings.host else Str("localhost")) + ":" + Show(settings.port);
    if Truthy(settings.host) then message + " (bound to host: " + Show(settings.host) + ")" else message
  }
}
