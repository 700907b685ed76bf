/** The public-URL builder (src/utils/proxy-integration.ts): a local URL when
    the proxy is disabled, otherwise a subdomain of the configured domain.
    The clock is the parameter `now`. */
module ProxyIntegration {
  import opened Common
  import opened Text

  datatype ProxyConfig = ProxyConfig(enabled: bool, domain: string, serverUrl: Option<string>)

  const LocalPrefix := "http://localhost:"
  const DefaultDomain := "preview.komposia.com"

  /** `createPublicUrl`: the local address of the port when disabled (the
      subdomain is ignored); otherwise `https://<sub>.<domain>`, where a
      missing or empty subdomain becomes `preview-<now>`. */
  function CreatePublicUrl(config: ProxyConfig, localPort: int, subdomain: Option<string>, now: int): (url: string)
    ensures !config.enabled ==> url == LocalPrefix + IntToString(localPort)
    ensures config.enabled ==> url == "https://" + SubdomainFor(subdomain, now) + "." + config.domain
  {
    if !config.enabled then LocalPrefix + IntToString(localPort)
    else "https://" + SubdomainFor(subdomain, now) + "." + config.domain
  }

  /** The subdomain a public URL uses: the one given when it is non-empty,
      otherwise one made from the clock. */
  function SubdomainFor(subdomain: Option<string>, now: int): (sub: string)
    ensures Truthy(subdomain) ==> sub == subdomain.value
    ensures !Truthy(subdomain) ==> sub == "preview-" + IntToString(now)
    ensures sub != ""
  {
    if Truthy(subdomain) then subdomain.value else "preview-" + IntToString(now)
  }

  /** When disabled, the port reads back from the URL. */
  lemma LocalUrlPort(config: ProxyConfig, localPort: int, subdomain: Option<string>, now: int)
    requires !config.enabled
    ensures var url := CreatePublicUrl(config, localPort, subdomain, now);
            StartsWith(url, LocalPrefix) && ParseInt(url[|LocalPrefix|..]) == Some(localPort)
  {
    var url := CreatePublicUrl(config, localPort, subdomain, now);
    assert url[|LocalPrefix|..] == IntToString(localPort);
    ParseIntOfIntToString(localPort);
  }

  /** When disabled, the subdomain and the clock make no difference. */
  lemma LocalUrlIgnoresSubdomain(config: ProxyConfig, port: int, sub1: Option<string>, sub2: Option<string>, now1: int, now2: int)
    requires !config.enabled
    ensures CreatePublicUrl(config, port, sub1, now1) == CreatePublicUrl(config, port, sub2, now2)
  {
  }

  /** When enabled, the URL is a secure subdomain of the configured domain,
      and the subdomain reads back from it. */
  lemma PublicUrlShape(config: ProxyConfig, port: int, subdomain: Option<string>, now: int)
    requires config.enabled
    ensures var url := CreatePublicUrl(config, port, subdomain, now);
            var sub := SubdomainFor(subdomain, now);
            StartsWith(url, "https://") &&
            url[8..8 + |sub|] == sub &&
            url[8 + |sub|..] == "." + config.domain
  {
    ThreeParts("https://", SubdomainFor(subdomain, now), "." + config.domain);
  }

  lemma ThreeParts(a: string, b: string, c: string)
    ensures StartsWith(a + b + c, a)
    ensures (a + b + c)[|a|..|a| + |b|] == b && (a + b + c)[|a| + |b|..] == c
  {
    assert (a + b + c)[..|a|] == a;
  }

  /** `removePublicUrl`: nothing when disabled, otherwise the line it logs. */
  function RemovePublicUrl(config: ProxyConfig, subdomain: string): (logged: Option<string>)
    ensures logged.None? <==> !config.enabled
    ensures logged.Some? ==> logged.value == "Would remove subdomain: " + subdomain
  {
    if !config.enabled then None else Some("Would remove subdomain: " + subdomain)
  }

  /** The default configuration from the environment: enabled only by the
      exact value `true`; the domain from the environment when non-empty. */
  function DefaultConfig(envEnabled: Option<string>, envDomain: Option<string>): (c: ProxyConfig)
    ensures c.enabled <==> envEnabled == Some("true")
    ensures c.domain == (if Truthy(envDomain) then envDomain.value else DefaultDomain)
    ensures c.domain != "" && c.serverUrl.None?
  {
    ProxyConfig(envEnabled == Some("true"), if Truthy(envDomain) then envDomain.value else DefaultDomain, None)
  }
}
