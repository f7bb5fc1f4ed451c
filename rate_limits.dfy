/**
 * The rate-limit tracker of `src/pygur.py`: the `RateLimits` record and the
 * merge `Imgur._update_rate_limits` performs after every exchange.
 */
module RateLimit {
  import opened Wrappers

  /** Response headers, their values already read as integers. */
  type Headers = map<string, int>

  const ClientLimitHeader := "X-RateLimit-ClientLimit"
  const ClientRemainingHeader := "X-RateLimit-ClientRemaining"
  const ClientResetHeader := "X-RateLimit-ClientReset"
  const UserLimitHeader := "X-RateLimit-UserLimit"
  const UserRemainingHeader := "X-RateLimit-UserRemaining"
  const UserResetHeader := "X-RateLimit-UserReset"

  /** Client quota figures, and user quota figures that stay `None` until a response reports them. */
  datatype RateLimits = RateLimits(
    clientLimit: int,
    clientRemaining: int,
    clientReset: int,
    userLimit: Option<int>,
    userRemaining: Option<int>,
    userReset: Option<int>)

  /** `RateLimits()`: what a new client starts from. */
  const Initial := RateLimits(12500, 12500, 0, None, None, None)

  /** A field fed by header `name`: the header's value if present, else what the field held. */
  function Sticky(prev: int, headers: Headers, name: string): int {
    if name in headers then headers[name] else prev
  }

  function StickyOpt(prev: Option<int>, headers: Headers, name: string): Option<int> {
    if name in headers then Some(headers[name]) else prev
  }

  /** The record after `_update_rate_limits` has read `headers`. */
  function Merge(r: RateLimits, headers: Headers): (m: RateLimits)
    ensures ClientLimitHeader in headers ==> m.clientLimit == headers[ClientLimitHeader]
    ensures ClientLimitHeader !in headers ==> m.clientLimit == r.clientLimit
    ensures ClientRemainingHeader in headers ==> m.clientRemaining == headers[ClientRemainingHeader]
    ensures ClientRemainingHeader !in headers ==> m.clientRemaining == r.clientRemaining
    ensures ClientResetHeader in headers ==> m.clientReset == headers[ClientResetHeader]
    ensures ClientResetHeader !in headers ==> m.clientReset == r.clientReset
    ensures UserLimitHeader in headers ==> m.userLimit == Some(headers[UserLimitHeader])
    ensures UserLimitHeader !in headers ==> m.userLimit == r.userLimit
    ensures UserRemainingHeader in headers ==> m.userRemaining == Some(headers[UserRemainingHeader])
    ensures UserRemainingHeader !in headers ==> m.userRemaining == r.userRemaining
    ensures UserResetHeader in headers ==> m.userReset == Some(headers[UserResetHeader])
    ensures UserResetHeader !in headers ==> m.userReset == r.userReset
  {
    RateLimits(
      Sticky(r.clientLimit, headers, ClientLimitHeader),
      Sticky(r.clientRemaining, headers, ClientRemainingHeader),
      Sticky(r.clientReset, headers, ClientResetHeader),
      StickyOpt(r.userLimit, headers, UserLimitHeader),
      StickyOpt(r.userRemaining, headers, UserRemainingHeader),
      StickyOpt(r.userReset, headers, UserResetHeader))
  }

  /** Reading two responses in turn is reading their headers at once, the later response winning. */
  lemma MergeTwice(r: RateLimits, first: Headers, second: Headers)
    ensures Merge(Merge(r, first), second) == Merge(r, first + second)
  {
  }

  /** The tracker after a run of responses, the first one first. */
  function MergeAll(r: RateLimits, responses: seq<Headers>): RateLimits {
    if responses == [] then r
    else Merge(MergeAll(r, responses[..|responses| - 1]), responses[|responses| - 1])
  }

  /** Each header name with the value the latest response carrying it gave. */
  function Latest(responses: seq<Headers>): (h: Headers)
    ensures forall name :: name in h <==> exists k :: 0 <= k < |responses| && name in responses[k]
  {
    if responses == [] then map[]
    else Latest(responses[..|responses| - 1]) + responses[|responses| - 1]
  }

  /**
   * Sticky merge across responses: each field holds the value of the latest
   * response that carried its header, and its earlier value when none did.
   */
  lemma {:induction false} MergeAllIsLatest(r: RateLimits, responses: seq<Headers>)
    ensures MergeAll(r, responses) == Merge(r, Latest(responses))
  {
    if responses != [] {
      var init := responses[..|responses| - 1];
      MergeAllIsLatest(r, init);
      MergeTwice(r, Latest(init), responses[|responses| - 1]);
    }
  }

  /** Reading the same headers again changes nothing. */
  lemma MergeIdempotent(r: RateLimits, headers: Headers)
    ensures Merge(Merge(r, headers), headers) == Merge(r, headers)
  {
  }

  /**
   * A first response with only `ClientRemaining: 100` and a second with only
   * `ClientLimit: 500` leave remaining = 100 and limit = 500.
   */
  lemma StickyExample()
    ensures var r := MergeAll(Initial, [map[ClientRemainingHeader := 100], map[ClientLimitHeader := 500]]);
            r.clientRemaining == 100 && r.clientLimit == 500 && r.clientReset == 0 && r.userLimit.None?
  {
    var rs: seq<Headers> := [map[ClientRemainingHeader := 100], map[ClientLimitHeader := 500]];
    assert rs[..1][..0] == [];
    assert MergeAll(Initial, rs[..1][..0]) == Initial;
    var first := MergeAll(Initial, rs[..1]);
    assert first == Merge(Initial, rs[0]);
    assert ClientResetHeader != ClientRemainingHeader && ClientResetHeader != ClientLimitHeader;
    assert UserLimitHeader != ClientRemainingHeader && UserLimitHeader != ClientLimitHeader;
  }
}
