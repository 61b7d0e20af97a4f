/**
 * `WebhookConfig`: the registry of named webhooks. `webhooks` maps names to
 * URLs; `sections` is the top level of the webhook configuration file as
 * parsed (reading and writing the file is not modelled); the defaults come
 * from the main configuration.
 */
module Config {
  import opened Wrappers

  const DefaultRequests: int := 5
  const DefaultPeriodSeconds: int := 2

  /** A `rate-limit` subsection; a key that is missing or not a number is `None`. */
  datatype RateLimitSection = RateLimitSection(requests: Option<int>, period: Option<int>)

  /**
   * A top-level entry of the file: a section with an optional `url` string and
   * an optional `rate-limit` subsection, or some other value.
   */
  datatype Entry =
    | Section(url: Option<string>, rateLimit: Option<RateLimitSection>)
    | Other

  /** A section that `loadWebhooks` turns into a webhook: its url is present and non-empty. */
  predicate Loadable(e: Entry) {
    e.Section? && e.url.Some? && e.url.value != []
  }

  /** The registry `loadWebhooks` builds from a file. */
  function LoadedWebhooks(sections: map<string, Entry>): (m: map<string, string>)
    ensures forall k :: k in sections && Loadable(sections[k]) ==> k in m
    ensures forall k :: k in m ==> k in sections && Loadable(sections[k]) && m[k] == sections[k].url.value
  {
    map k | k in sections && Loadable(sections[k]) :: sections[k].url.value
  }

  /** The file after `config.set(name + ".url", url)`: other keys of the section stay. */
  function SetUrl(sections: map<string, Entry>, name: string, url: string): (s: map<string, Entry>)
    ensures s.Keys == sections.Keys + {name}
    ensures s[name].Section? && s[name].url == Some(url)
    ensures name in sections && sections[name].Section? ==> s[name].rateLimit == sections[name].rateLimit
    ensures forall k :: k in sections && k != name ==> s[k] == sections[k]
  {
    var rateLimit := if name in sections && sections[name].Section? then sections[name].rateLimit else None;
    sections[name := Section(Some(url), rateLimit)]
  }

  class WebhookConfig {
    var webhooks: map<string, string>
    var sections: map<string, Entry>
    var defaultRateLimit: int
    var defaultRateLimitPeriod: int

    /** Every registered webhook has a section in the file carrying its url. */
    ghost predicate Valid()
      reads this
    {
      forall k :: k in webhooks ==> k in sections && sections[k].Section? && sections[k].url == Some(webhooks[k])
    }

    /**
     * `new WebhookConfig(plugin)`, which runs `loadConfig`: `mainRequests` and
     * `mainPeriod` are `rate-limit.requests` and `rate-limit.period` of the
     * main configuration, `file` the parsed webhook file.
     */
    constructor (mainRequests: Option<int>, mainPeriod: Option<int>, file: map<string, Entry>)
      ensures Valid()
      ensures defaultRateLimit == mainRequests.GetOr(DefaultRequests)
      ensures defaultRateLimitPeriod == mainPeriod.GetOr(DefaultPeriodSeconds)
      ensures sections == file && webhooks == LoadedWebhooks(file)
    {
      defaultRateLimit := mainRequests.GetOr(DefaultRequests);
      defaultRateLimitPeriod := mainPeriod.GetOr(DefaultPeriodSeconds);
      sections := file;
      webhooks := map[];
      new;
      LoadWebhooks();
    }

    /** `loadConfig`, from already-read configuration values. */
    method LoadConfig(mainRequests: Option<int>, mainPeriod: Option<int>, file: map<string, Entry>)
      modifies this
      ensures Valid()
      ensures defaultRateLimit == mainRequests.GetOr(DefaultRequests)
      ensures defaultRateLimitPeriod == mainPeriod.GetOr(DefaultPeriodSeconds)
      ensures sections == file && webhooks == LoadedWebhooks(file)
    {
      defaultRateLimit := mainRequests.GetOr(DefaultRequests);
      defaultRateLimitPeriod := mainPeriod.GetOr(DefaultPeriodSeconds);
      sections := file;
      LoadWebhooks();
    }

    /**
     * `loadWebhooks`: clears the registry, then walks the file's top-level
     * keys and keeps each section whose url is present and non-empty.
     */
    method LoadWebhooks()
      modifies this`webhooks
      ensures Valid()
      ensures webhooks == LoadedWebhooks(sections)
    {
      webhooks := map[];
      var pending := sections.Keys;
      while pending != {}
        invariant pending <= sections.Keys
        invariant forall k :: k in webhooks <==> k in sections && k !in pending && Loadable(sections[k])
        invariant forall k :: k in webhooks ==> webhooks[k] == sections[k].url.value
        decreases pending
      {
        var key :| key in pending;
        var entry := sections[key];
        if entry.Section? && entry.url.Some? && entry.url.value != [] {
          webhooks := webhooks[key := entry.url.value];
        }
        pending := pending - {key};
      }
    }

    /** `registerWebhook`: refuses a name already registered. */
    method RegisterWebhook(name: string, url: string) returns (ok: bool)
      requires Valid()
      modifies this`webhooks, this`sections
      ensures Valid()
      ensures ok <==> name !in old(webhooks)
      ensures ok ==> webhooks == old(webhooks)[name := url] && sections == SetUrl(old(sections), name, url)
      ensures !ok ==> webhooks == old(webhooks) && sections == old(sections)
    {
      if name in webhooks {
        return false;
      }
      webhooks := webhooks[name := url];
      sections := SetUrl(sections, name, url);
      ok := true;
    }

    /** `unregisterWebhook`: refuses a name not registered; removes its section too. */
    method UnregisterWebhook(name: string) returns (ok: bool)
      requires Valid()
      modifies this`webhooks, this`sections
      ensures Valid()
      ensures ok <==> name in old(webhooks)
      ensures ok ==> webhooks == old(webhooks) - {name} && sections == old(sections) - {name}
      ensures !ok ==> webhooks == old(webhooks) && sections == old(sections)
    {
      if name !in webhooks {
        return false;
      }
      webhooks := webhooks - {name};
      sections := sections - {name};
      ok := true;
    }

    /** `getWebhookUrl`: the stored URL, or `None` (Java's null) for an unknown name. */
    function GetWebhookUrl(name: string): (url: Option<string>)
      reads this
      ensures url.Some? <==> name in webhooks
      ensures url.Some? ==> url.value == webhooks[name]
    {
      if name in webhooks then Some(webhooks[name]) else None
    }

    /**
     * `getWebhooks`: a copy of the registry. Maps are values here, so later
     * changes to either side cannot reach the other.
     */
    method GetWebhooks() returns (m: map<string, string>)
      ensures m.Keys == webhooks.Keys
      ensures forall k :: k in m ==> GetWebhookUrl(k) == Some(m[k])
    {
      m := webhooks;
    }

    /** The `rate-limit` subsection of `name`'s section, when it has one. */
    function RateLimitSectionOf(name: string): Option<RateLimitSection>
      reads this
    {
      if name in sections && sections[name].Section? then sections[name].rateLimit else None
    }

    /** `getRateLimit`: the section's `requests` only under a `rate-limit` subsection. */
    function GetRateLimit(name: string): (requests: int)
      reads this
      ensures RateLimitSectionOf(name).None? ==> requests == defaultRateLimit
      ensures RateLimitSectionOf(name).Some? ==> requests == RateLimitSectionOf(name).value.requests.GetOr(defaultRateLimit)
    {
      var rateLimit := RateLimitSectionOf(name);
      if rateLimit.Some? then rateLimit.value.requests.GetOr(defaultRateLimit) else defaultRateLimit
    }

    /** `getRateLimitPeriod`: the section's `period` only under a `rate-limit` subsection. */
    function GetRateLimitPeriod(name: string): (seconds: int)
      reads this
      ensures RateLimitSectionOf(name).None? ==> seconds == defaultRateLimitPeriod
      ensures RateLimitSectionOf(name).Some? ==> seconds == RateLimitSectionOf(name).value.period.GetOr(defaultRateLimitPeriod)
    {
      var rateLimit := RateLimitSectionOf(name);
      if rateLimit.Some? then rateLimit.value.period.GetOr(defaultRateLimitPeriod) else defaultRateLimitPeriod
    }
  }

  /**
   * Registering a new name and then unregistering it leaves the registry as
   * it was; the file loses the name's section altogether.
   */
  method RegisterThenUnregister(c: WebhookConfig, name: string, url: string) returns (registered: bool, removed: bool)
    requires c.Valid() && name !in c.webhooks
    modifies c
    ensures registered && removed
    ensures c.webhooks == old(c.webhooks)
    ensures c.sections == old(c.sections) - {name}
  {
    registered := c.RegisterWebhook(name, url);
    removed := c.UnregisterWebhook(name);
  }

  /** After an unregister, a name's rate limits are the defaults again. */
  method UnregisterRestoresDefaults(c: WebhookConfig, name: string) returns (removed: bool)
    requires c.Valid()
    modifies c
    ensures removed ==> c.GetRateLimit(name) == c.defaultRateLimit
    ensures removed ==> c.GetRateLimitPeriod(name) == c.defaultRateLimitPeriod
    ensures removed ==> c.GetWebhookUrl(name).None?
  {
    removed := c.UnregisterWebhook(name);
  }
}
