/** The configured port and the texts derived from it. */
module Settings {
  import opened Wrappers
  import opened JsValues

  /** The major version of Express the server runs on; the code works with
      either. They differ in two ways the server can observe:
      - what `app.listen(port, callback)` registers the callback for: the
        `'listening'` event only (4), or also a first `'error'` (5);
      - what `express.json()` leaves in `req.body` for a request without a
        body: `{}` (4) or `undefined` (5). */
  datatype Express = Express4 | Express5

  /** The port used when `MCP_PORT` is unset or empty. */
  const DefaultPort: int := 3999

  /** A configured port. The host passes `process.env.MCP_PORT || 3999`, so the
      port is either the number 3999 (or any number given to the server's
      constructor) or the environment variable's text, kept as a string. */
  datatype Port = Number(n: int) | EnvText(s: string)

  /** `process.env.MCP_PORT || 3999`: an empty variable counts as unset. */
  function PortFromEnv(mcpPort: Option<string>): (p: Port)
    ensures mcpPort.Some? && mcpPort.value != "" ==> p == EnvText(mcpPort.value)
    ensures mcpPort.None? || mcpPort.value == "" ==> p == Number(DefaultPort)
  {
    if mcpPort.Some? && mcpPort.value != "" then EnvText(mcpPort.value) else Number(DefaultPort)
  }

  /** `${port}` in a template literal. */
  function PortText(p: Port): string {
    match p
    case Number(n) => IntToDecimal(n)
    case EnvText(s) => s
  }

  /** `port` as `JSON.stringify` writes it: a number bare, a string quoted. */
  function PortJson(p: Port): string {
    match p
    case Number(n) => IntToDecimal(n)
    case EnvText(s) => JsonQuote(s)
  }

  const EndpointPrefix := "http://localhost:"
  const EndpointSuffix := "/mcp"

  /** `http://localhost:${port}/mcp`: the port text sits between a fixed
      prefix and a fixed suffix, so it can be read back from the URL. */
  function EndpointUrl(p: Port): (url: string)
    ensures |url| == |EndpointPrefix| + |PortText(p)| + |EndpointSuffix|
    ensures url[..|EndpointPrefix|] == EndpointPrefix
    ensures url[|url| - |EndpointSuffix|..] == EndpointSuffix
    ensures url[|EndpointPrefix|..|url| - |EndpointSuffix|] == PortText(p)
  {
    EndpointPrefix + PortText(p) + EndpointSuffix
  }

  /** Two ports give the same endpoint exactly when they print the same. */
  lemma EndpointUrlDeterminesPortText(p: Port, q: Port)
    ensures EndpointUrl(p) == EndpointUrl(q) <==> PortText(p) == PortText(q)
  {
    if EndpointUrl(p) == EndpointUrl(q) {
      var u := EndpointUrl(p);
      assert PortText(p) == u[|EndpointPrefix|..|u| - |EndpointSuffix|] == PortText(q);
    }
  }

  /** With no configuration the endpoint is the documented default. */
  lemma DefaultEndpoint()
    ensures EndpointUrl(PortFromEnv(None)) == "http://localhost:3999/mcp"
  {
    assert NatToDecimal(3999) == "3999" by {
      assert NatToDecimal(3) == "3";
      assert NatToDecimal(39) == "39";
      assert NatToDecimal(399) == "399";
    }
  }
}
