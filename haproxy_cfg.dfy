/** The HAProxy configuration compiler of the load-balancer agent
    (neutron/services/loadbalancer/drivers/haproxy/cfg.py): from the logical
    configuration of one pool (its VIP, members, health monitors and layer-7
    policies) it produces the lines of the `global`, `defaults`, `frontend`
    and `backend` sections of an haproxy.cfg file.

    Python's exceptions become a `Failure` outcome: a missing dictionary key
    is a KeyError, `int()` on a malformed string a ValueError, and string
    concatenation with None a TypeError. */
module HaproxyCfg {
  import opened Common

  // ---------------------------------------------------------------------
  // Logical configuration

  datatype Protocol = TCP | HTTP | HTTPS

  datatype MonitorKind = Ping | Tcp | HttpMonitor | HttpsMonitor

  datatype CfgError = KeyError(key: string) | ValueError | TypeError

  datatype Result<T> = Ok(value: T) | Failure(error: CfgError)

  /** A health monitor of the pool. */
  datatype Monitor = Monitor(adminStateUp: bool, kind: MonitorKind, delay: int, maxRetries: int,
                             timeout: int, httpMethod: string, urlPath: string, expectedCodes: string)

  /** The JSON `extra_actions` of an APP_COOKIE persistence, already parsed:
      `maxAge` is present when it holds a `set_cookie_for_member` entry with
      a `max_age` key (rendered as text). */
  datatype ExtraActions = ExtraActions(maxAge: Option<string>)

  /** The values of the API's enumerated fields that the code looks up in
      its maps; any other value keeps its text (for the KeyError) and is
      never one of the known names. */
  datatype PersistenceType = SourceIp | HttpCookie | AppCookie | OtherPersistence(name: string)
  datatype LbMethod = RoundRobin | LeastConnections | SourceIpMethod | OtherMethod(name: string)
  datatype RuleType = BackendServerId | OtherRuleType(name: string)
  datatype CompareType = IntegerEq | OtherCompareType(name: string)
  datatype Action = Block | Redirect | AddHeader | OtherAction(name: string)

  /** A VIP's session persistence; an empty `cookie_name` or `extra_actions`
      is written as None, since the code only tests their truth. */
  datatype Persistence = Persistence(kind: PersistenceType, cookieName: Option<string>, extraActions: Option<ExtraActions>)

  /** `fixedIps` are the VIP port's fixed IP addresses in order. */
  datatype Vip = Vip(id: string, protocol: Protocol, fixedIps: seq<string>, protocolPort: int,
                     connectionLimit: int, persistence: Option<Persistence>)

  datatype Pool = Pool(id: string, protocol: Protocol, lbMethod: LbMethod)

  /** A pool member; `ip` is the integer value of `address` as an IP
      address, the sort key the code computes with netaddr. */
  datatype Member = Member(id: string, address: string, ip: int, protocolPort: int, weight: int,
                           priority: int, status: string, adminStateUp: bool,
                           monitorAddress: Option<string>, monitorPort: Option<int>)

  /** A rule's `value` is text as it comes from the API, and a number once
      `_build_acl` has converted a backendServerId value in place. */
  datatype RuleValue = Text(text: string) | Number(number: nat)

  datatype Rule = Rule(id: string, kind: RuleType, compareType: CompareType, compareValue: Option<string>,
                       value: Option<RuleValue>)

  /** The `policy` part of an l7 policy entry. The code reads the priority
      from this dict (`a['policy']['priority']`); the model moves it up into
      the entry, where the sort reads it. */
  datatype L7Policy = L7Policy(action: Action, value: Option<string>)

  datatype PolicyEntry = PolicyEntry(priority: int, policy: L7Policy, rules: seq<Rule>)

  /** The extra action of an APP_COOKIE persistence once `cookie_name` has
      been pushed into it. */
  datatype ExtraAction = ExtraAction(cookieName: string, maxAge: Option<string>)

  const AclRuleIdLength: nat := 9
  const AclRuleNameLength: nat := 12

  /** The member statuses the backend serves (the shared plugin constants
      ACTIVE_PENDING_STATUSES and INACTIVE). */
  const ActivePendingStatuses: set<string> := {"ACTIVE", "PENDING_CREATE", "PENDING_UPDATE"}
  const Inactive := "INACTIVE"

  // ---------------------------------------------------------------------
  // Lookup tables

  /** PROTOCOL_MAP: HTTPS is passed through as TCP. */
  function Mode(p: Protocol): (r: string)
    ensures r == "http" <==> p == HTTP
    ensures r == "tcp" <==> p != HTTP
  {
    match p
    case TCP => "tcp"
    case HTTP => "http"
    case HTTPS => "tcp"
  }

  /** BALANCE_MAP with the `roundrobin` fallback of `_build_backend`. */
  function Balance(lbMethod: LbMethod): (r: string)
    ensures lbMethod.OtherMethod? ==> r == "roundrobin"
    ensures r == "leastconn" <==> lbMethod == LeastConnections
    ensures r == "source" <==> lbMethod == SourceIpMethod
  {
    match lbMethod
    case RoundRobin => "roundrobin"
    case LeastConnections => "leastconn"
    case SourceIpMethod => "source"
    case OtherMethod(_) => "roundrobin"
  }

  /** Every option prefixed with a tab. */
  function Tabbed(opts: seq<string>): (r: seq<string>)
    ensures |r| == |opts|
    ensures forall i :: 0 <= i < |opts| ==> r[i] == "\t" + opts[i]
  {
    if |opts| == 0 then [] else ["\t" + opts[0]] + Tabbed(opts[1..])
  }

  /** A section: the header line, then the tabbed options. */
  function Section(header: string, opts: seq<string>): seq<string>
  {
    [header] + Tabbed(opts)
  }

  // ---------------------------------------------------------------------
  // global, defaults, frontend

  /** `_build_global`: the stats socket line is there exactly when a socket
      path is given. */
  function BuildGlobal(socketPath: Option<string>, userGroup: string): (r: seq<string>)
    ensures |r| >= 6 && r[0] == "global" && r[3] == "\t" + ("group " + userGroup)
    ensures |r| == 7 <==> socketPath.Some? && socketPath.value != ""
    ensures |r| == 7 ==> r[6] == "\t" + ("stats socket " + socketPath.value + " mode 0666 level user")
  {
    var opts := ["daemon", "user nobody", "group " + userGroup, "log /dev/log local0", "log /dev/log local1 notice"]
                + if socketPath.Some? && socketPath.value != ""
                  then ["stats socket " + socketPath.value + " mode 0666 level user"] else [];
    Section("global", opts)
  }

  /** `_build_defaults`: fixed retries and timeouts. */
  function BuildDefaults(): (r: seq<string>)
    ensures |r| == 7 && r[0] == "defaults"
  {
    Section("defaults", ["log global", "retries 3", "option redispatch", "timeout connect 5000",
                         "timeout client 50000", "timeout server 50000"])
  }

  /** `_get_first_ip_from_port`, rendered with `%s`: None when the port has
      no fixed IP. */
  function FirstIp(fixedIps: seq<string>): string
  {
    if |fixedIps| == 0 then "None" else fixedIps[0]
  }

  /** The options of `_build_frontend`: four fixed ones, then `maxconn`
      exactly when the connection limit is not negative, and `option
      forwardfor` last exactly for HTTP. */
  function FrontendOpts(vip: Vip, poolId: string): (opts: seq<string>)
    ensures |opts| == 4 + (if vip.connectionLimit >= 0 then 1 else 0) + (if vip.protocol == HTTP then 1 else 0)
    ensures opts[0] == "option tcplog"
    ensures opts[1] == "bind " + FirstIp(vip.fixedIps) + ":" + IntToString(vip.protocolPort)
    ensures opts[2] == "mode " + Mode(vip.protocol) && opts[3] == "default_backend " + poolId
    ensures vip.connectionLimit >= 0 <==> |opts| > 4 && opts[4] == "maxconn " + IntToString(vip.connectionLimit)
    ensures vip.protocol == HTTP <==> opts[|opts| - 1] == "option forwardfor"
  {
    var fixed := ["option tcplog",
                  "bind " + FirstIp(vip.fixedIps) + ":" + IntToString(vip.protocolPort),
                  "mode " + Mode(vip.protocol),
                  "default_backend " + poolId];
    var limit := if vip.connectionLimit >= 0 then ["maxconn " + IntToString(vip.connectionLimit)] else [];
    var forward := if vip.protocol == HTTP then ["option forwardfor"] else [];
    var opts := fixed + limit + forward;
    assert |limit| > 0 ==> limit[0][0] == 'm';
    assert ("maxconn " + IntToString(vip.connectionLimit))[0] == 'm';
    assert |forward| > 0 ==> forward[0][0] == 'o';
    assert fixed[3][0] == 'd';
    opts
  }

  /** `_build_frontend`: the `frontend <vip id>` header and the tabbed
      options. */
  function BuildFrontend(vip: Vip, poolId: string): (r: seq<string>)
    ensures |r| > 0 && r[0] == "frontend " + vip.id && r[1..] == Tabbed(FrontendOpts(vip, poolId))
  {
    Section("frontend " + vip.id, FrontendOpts(vip, poolId))
  }

  // ---------------------------------------------------------------------
  // ACLs and policy actions

  /** `_get_acl_name`: "acl_" and the rule id, cut to twelve characters. */
  function AclName(ruleId: string): (r: string)
    ensures |r| == if |ruleId| < AclRuleNameLength - 4 then |ruleId| + 4 else AclRuleNameLength
    ensures StartsWith(r, "acl_") && r[4..] == ruleId[..|r| - 4]
  {
    Take("acl_" + ruleId, AclRuleNameLength)
  }

  lemma Pow16Monotone(a: nat, b: nat)
    requires a <= b
    ensures Pow16(a) <= Pow16(b)
    decreases b - a
  {
    if a < b {
      Pow16Monotone(a + 1, b);
    }
  }

  /** `_get_acl_member_id`: the first seven characters of the id read as
      hexadecimal ("0x" + id cut to nine characters), or a ValueError. */
  function AclMemberId(id: string): (r: Option<nat>)
    ensures var d := StripRight(Take(id, AclRuleIdLength - 2));
            r == if |d| > 0 && AllHexDigits(d) then Some(HexValue(d)) else None
    ensures r.Some? ==> r.value < Pow16(7)
  {
    var s := Take("0x" + id, AclRuleIdLength);
    assert s[2..] == Take(id, AclRuleIdLength - 2);
    var r := ParseHexWithPrefix(s);
    if r.Some? then
      var d := StripRight(s[2..]);
      HexValueBound(d);
      Pow16Monotone(|d|, 7);
      r
    else r
  }

  /** An id whose first seven characters are hexadecimal digits (every
      UUID) always has a member id, the value of those seven digits. */
  lemma AclMemberIdOfHexPrefix(id: string)
    requires |id| >= 7 && AllHexDigits(id[..7])
    ensures AclMemberId(id) == Some(HexValue(id[..7]))
  {
    var d := Take(id, 7);
    assert d == id[..7];
    assert d[|d| - 1] !in Whitespace by {
      assert IsHexDigit(d[6]);
    }
  }

  /** `'%s' % value`: None renders as "None". */
  function Rendered(v: Option<string>): string
  {
    if v.Some? then v.value else "None"
  }

  /** `_build_acl`. The backendServerId updater runs first and converts the
      rule's value to its member id in place (a TypeError for a missing
      value, a ValueError for a malformed one); then the type and compare
      maps are looked up, each a KeyError when the key is unknown. The
      result carries the rule as the updater left it. */
  function BuildAcl(rule: Rule): (r: (Rule, Result<string>))
    ensures r.1.Ok? <==> rule.kind == BackendServerId && rule.compareType == IntegerEq
                         && rule.value.Some? && rule.value.value.Text?
                         && AclMemberId(rule.value.value.text).Some?
    ensures rule.kind.OtherRuleType? ==> r == (rule, Failure(KeyError(rule.kind.name)))
    ensures rule.kind == BackendServerId && rule.value.Some? && rule.value.value.Text?
            && AclMemberId(rule.value.value.text).Some? && rule.compareType.OtherCompareType?
            ==> r.1 == Failure(KeyError(rule.compareType.name))
    ensures rule.kind == BackendServerId && (rule.value.None? || rule.value.value.Number?) ==> r.1 == Failure(TypeError)
    ensures r.1.Ok? ==> r.1.value == "acl " + AclName(rule.id) + " srv_id eq " + Rendered(rule.compareValue)
    ensures r.0.id == rule.id && r.0.kind == rule.kind && r.0.compareType == rule.compareType
    ensures r.1.Ok? ==> r.0.value == Some(Number(AclMemberId(rule.value.value.text).value))
  {
    var name := "acl " + AclName(rule.id);
    match rule.kind
    case OtherRuleType(key) => (rule, Failure(KeyError(key)))
    case BackendServerId =>
      if rule.value.None? || rule.value.value.Number? then (rule, Failure(TypeError))
      else
        match AclMemberId(rule.value.value.text)
        case None => (rule, Failure(ValueError))
        case Some(n) =>
          var updated := rule.(value := Some(Number(n)));
          match rule.compareType
          case IntegerEq => (updated, Ok(name + " srv_id eq " + Rendered(rule.compareValue)))
          case OtherCompareType(key) => (updated, Failure(KeyError(key)))
  }

  /** A backendServerId rule that `_build_acl` has converted cannot be
      converted again: `'0x' + <int>` is a TypeError. Building the same
      logical configuration twice therefore fails the second time. */
  lemma {:induction false} RebuildingAnAclFails(rule: Rule)
    requires BuildAcl(rule).1.Ok?
    ensures BuildAcl(BuildAcl(rule).0).1 == Failure(TypeError)
  {
    var updated := BuildAcl(rule).0;
    assert updated.value.Some? && updated.value.value.Number?;
    assert updated.kind == BackendServerId;
  }

  /** `value.replace(' ', '\ ')`. */
  function EscapeSpaces(v: string): (r: string)
  {
    Replace(v, ' ', "\\ ")
  }

  /** Every space of an escaped value is preceded by a backslash, and
      nothing but the spaces changed. */
  lemma {:induction false} EscapedSpacesFollowBackslashes(v: string)
    ensures var e := EscapeSpaces(v);
            forall i | 0 <= i < |e| && e[i] == ' ' :: i > 0 && e[i - 1] == '\\'
  {
    if |v| > 0 {
      EscapedSpacesFollowBackslashes(v[1..]);
      var head := if v[0] == ' ' then "\\ " else [v[0]];
      var e := EscapeSpaces(v);
      var rest := EscapeSpaces(v[1..]);
      assert e == head + rest;
      forall i | 0 <= i < |e| && e[i] == ' '
        ensures i > 0 && e[i - 1] == '\\'
      {
        if i >= |head| {
          assert rest[i - |head|] == ' ';
          if i - |head| > 0 {
            assert e[i - 1] == rest[i - |head| - 1];
          } else {
            assert false;
          }
        }
      }
    }
  }

  /** Removing the backslash of each escaped space gives the value back. */
  function UnescapeSpaces(e: string): string
  {
    if |e| >= 2 && e[0] == '\\' && e[1] == ' ' then " " + UnescapeSpaces(e[2..])
    else if |e| == 0 then ""
    else [e[0]] + UnescapeSpaces(e[1..])
  }

  /** The escape is undone by `UnescapeSpaces` for every value without a
      backslash of its own. */
  lemma {:induction false} EscapeRoundTrip(v: string)
    requires '\\' !in v
    ensures UnescapeSpaces(EscapeSpaces(v)) == v
  {
    if |v| > 0 {
      EscapeRoundTrip(v[1..]);
      var rest := EscapeSpaces(v[1..]);
      if v[0] == ' ' {
        assert EscapeSpaces(v) == "\\ " + rest;
        assert (("\\ " + rest)[2..]) == rest;
      } else {
        assert EscapeSpaces(v) == [v[0]] + rest;
        assert ([v[0]] + rest)[1..] == rest;
      }
    }
  }

  /** The condition `_build_policy_action` appends to every action. */
  function Condition(ruleId: string): string
  {
    " if " + AclName(ruleId)
  }

  /** `_build_policy_action` for a policy and the rule it is conditioned
      on: the action template filled with the escaped value, then the
      condition on the rule's ACL; an unknown action is a KeyError. */
  function BuildPolicyAction(policy: L7Policy, ruleId: string): (r: Result<string>)
    ensures r.Ok? <==> !policy.action.OtherAction?
    ensures r.Failure? ==> r.error == KeyError(policy.action.name)
    ensures r.Ok? ==> exists head :: r.value == head + Condition(ruleId)
    ensures policy.action == Block ==> r == Ok("block" + Condition(ruleId))
    ensures policy.action in {Redirect, AddHeader} && policy.value.Some? && policy.value.value != "" ==>
              r == Ok((if policy.action == Redirect then "redirect location " else "rspadd ")
                      + EscapeSpaces(policy.value.value) + Condition(ruleId))
  {
    var value := if policy.value.Some? && policy.value.value != "" then EscapeSpaces(policy.value.value) else "";
    match policy.action
    case Block => Ok("block" + Condition(ruleId))
    case Redirect => Ok("redirect location " + value + Condition(ruleId))
    case AddHeader => Ok("rspadd " + value + Condition(ruleId))
    case OtherAction(key) => Failure(KeyError(key))
  }

  // ---------------------------------------------------------------------
  // Expected status codes

  /** The tokens of an expected-codes string: commas count as spaces and
      the string is cut at every space. */
  function CodeTokens(codes: string): (r: seq<string>)
    ensures forall k | 0 <= k < |r| :: ',' !in r[k] && ' ' !in r[k]
  {
    var spaced := Replace(codes, ',', " ");
    Split(spaced, ' ')
  }

  /** Every integer from `lo` to `hi` as text; nothing when `lo > hi`. */
  function CodeRange(lo: int, hi: int): (r: set<string>)
    ensures forall i | lo <= i <= hi :: IntToString(i) in r
    ensures forall c | c in r :: exists i | lo <= i <= hi :: c == IntToString(i)
    ensures lo > hi ==> r == {}
  {
    set i | lo <= i <= hi :: IntToString(i)
  }

  /** The codes one token stands for once stripped: none for an empty
      token; for a token holding '-', every integer from the text before
      the first '-' to the text after it (a ValueError when either is not an
      integer; anything after a second '-' is ignored); otherwise the token
      itself. */
  function TokenCodes(token: string): (r: Option<set<string>>)
    ensures Strip(token) == "" ==> r == Some({})
    ensures Strip(token) != "" && '-' !in Strip(token) ==> r == Some({Strip(token)})
  {
    var code := Strip(token);
    if code == "" then Some({})
    else if '-' in code then
      var bounds := Split(code, '-');
      var lo := ParseInt(bounds[0]);
      var hi := ParseInt(bounds[1]);
      if lo.Some? && hi.Some? then Some(CodeRange(lo.value, hi.value)) else None
    else Some({code})
  }

  /** The set `_expand_expected_codes` builds from a sequence of tokens, or
      None when one of them raises a ValueError. */
  function ExpandedCodes(tokens: seq<string>): Option<set<string>>
  {
    if |tokens| == 0 then Some({})
    else
      var prior := ExpandedCodes(tokens[..|tokens| - 1]);
      var last := TokenCodes(tokens[|tokens| - 1]);
      if prior.Some? && last.Some? then Some(prior.value + last.value) else None
  }

  /** The expansion succeeds exactly when every token does. */
  lemma {:induction false} ExpandedCodesSucceed(tokens: seq<string>)
    ensures ExpandedCodes(tokens).Some? <==> forall k | 0 <= k < |tokens| :: TokenCodes(tokens[k]).Some?
  {
    if |tokens| > 0 {
      var front := tokens[..|tokens| - 1];
      ExpandedCodesSucceed(front);
      assert forall k | 0 <= k < |front| :: front[k] == tokens[k];
    }
  }

  /** A successful expansion holds exactly the codes of its tokens. */
  lemma ExpandedCodesMembers(tokens: seq<string>, c: string)
    requires ExpandedCodes(tokens).Some?
    ensures c in ExpandedCodes(tokens).value <==>
              exists k | 0 <= k < |tokens| :: TokenCodes(tokens[k]).Some? && c in TokenCodes(tokens[k]).value
  {
    if c in ExpandedCodes(tokens).value {
      var k := ExpandedCodeSource(tokens, c);
    }
    forall k | 0 <= k < |tokens| && TokenCodes(tokens[k]).Some? && c in TokenCodes(tokens[k]).value
      ensures c in ExpandedCodes(tokens).value
    {
      ExpandedCodesInclude(tokens, k, c);
    }
  }

  /** A code of a successful expansion comes from one of its tokens. */
  lemma {:induction false} ExpandedCodeSource(tokens: seq<string>, c: string) returns (k: nat)
    requires ExpandedCodes(tokens).Some? && c in ExpandedCodes(tokens).value
    ensures k < |tokens| && TokenCodes(tokens[k]).Some? && c in TokenCodes(tokens[k]).value
  {
    var front := tokens[..|tokens| - 1];
    if c in TokenCodes(tokens[|tokens| - 1]).value {
      k := |tokens| - 1;
    } else {
      k := ExpandedCodeSource(front, c);
      assert front[k] == tokens[k];
    }
  }

  /** A successful expansion includes the codes of each of its tokens. */
  lemma {:induction false} ExpandedCodesInclude(tokens: seq<string>, k: nat, c: string)
    requires ExpandedCodes(tokens).Some? && k < |tokens|
    requires TokenCodes(tokens[k]).Some? && c in TokenCodes(tokens[k]).value
    ensures c in ExpandedCodes(tokens).value
  {
    var front := tokens[..|tokens| - 1];
    if k < |front| {
      assert front[k] == tokens[k];
      ExpandedCodesInclude(front, k, c);
    }
  }

  /** Once a token has failed, the expansion of every longer prefix fails. */
  lemma {:induction false} ExpandedFailureSticks(tokens: seq<string>, n: nat)
    requires n <= |tokens| && ExpandedCodes(tokens[..n]).None?
    ensures ExpandedCodes(tokens).None?
    decreases |tokens| - n
  {
    if n < |tokens| {
      assert tokens[..n + 1][..n] == tokens[..n];
      ExpandedFailureSticks(tokens, n + 1);
    } else {
      assert tokens[..n] == tokens;
    }
  }

  /** `_expand_expected_codes`: the loop over the tokens filling a set. */
  method ExpandExpectedCodes(codes: string) returns (r: Option<set<string>>)
    ensures r == ExpandedCodes(CodeTokens(codes))
  {
    var tokens := CodeTokens(codes);
    var retval: set<string> := {};
    for i := 0 to |tokens|
      invariant ExpandedCodes(tokens[..i]) == Some(retval)
    {
      assert tokens[..i + 1][..i] == tokens[..i] && tokens[..i + 1][i] == tokens[i];
      var code := Strip(tokens[i]);
      if code == "" {
        assert TokenCodes(tokens[i]) == Some({});
        assert ExpandedCodes(tokens[..i + 1]) == Some(retval + {});
        assert retval + {} == retval;
        continue;
      } else if '-' in code {
        var bounds := Split(code, '-');
        var lo := ParseInt(bounds[0]);
        var hi := ParseInt(bounds[1]);
        if lo.None? || hi.None? {
          assert TokenCodes(tokens[i]).None?;
          assert ExpandedCodes(tokens[..i + 1]).None?;
          ExpandedFailureSticks(tokens, i + 1);
          return None;
        }
        assert TokenCodes(tokens[i]) == Some(CodeRange(lo.value, hi.value));
        assert ExpandedCodes(tokens[..i + 1]) == Some(retval + CodeRange(lo.value, hi.value));
        retval := retval + CodeRange(lo.value, hi.value);
      } else {
        assert TokenCodes(tokens[i]) == Some({code});
        assert ExpandedCodes(tokens[..i + 1]) == Some(retval + {code});
        retval := retval + {code};
      }
    }
    assert tokens[..|tokens|] == tokens;
    return Some(retval);
  }

  lemma NotADigit(s: string, c: char)
    requires AllDigits(s) && !IsDigit(c)
    ensures c !in s
  {
  }

  /** A token "lo-hi" of two natural numbers stands for every integer from
      lo to hi, and for nothing when lo > hi. */
  lemma RangeTokenExpands(lo: nat, hi: nat)
    ensures ExpandedCodes(CodeTokens(NatToString(lo) + "-" + NatToString(hi))) == Some(CodeRange(lo, hi))
  {
    var token := NatToString(lo) + "-" + NatToString(hi);
    RangeTokenShape(NatToString(lo), NatToString(hi));
    ParseIntOfNatToString(lo);
    ParseIntOfNatToString(hi);
    assert TokenCodes(token) == Some(CodeRange(lo, hi));
    assert [token][..0] == [];
    assert {} + CodeRange(lo, hi) == CodeRange(lo, hi);
  }

  /** Two runs of digits joined by '-' make one token whose bounds are the
      two runs. */
  lemma RangeTokenShape(a: string, b: string)
    requires |a| > 0 && |b| > 0 && AllDigits(a) && AllDigits(b)
    ensures var token := a + "-" + b;
            CodeTokens(token) == [token] && Strip(token) == token && '-' in token
            && Split(token, '-') == [a, b]
  {
    var token := a + "-" + b;
    assert token == a + ['-'] + b;
    NotADigit(a, ' ');
    NotADigit(b, ' ');
    NotADigit(a, ',');
    NotADigit(b, ',');
    NotADigit(a, '-');
    NotADigit(b, '-');
    assert ' ' !in token && ',' !in token;
    assert Strip(token) == token by {
      assert IsDigit(token[0]) && IsDigit(token[|token| - 1]);
    }
    SplitAtOneSeparator(a, b, '-');
  }

  // ---------------------------------------------------------------------
  // Health monitors and session persistence

  /** The first monitor whose admin state is up, if any. */
  function FirstUpMonitor(monitors: seq<Monitor>): (r: Option<Monitor>)
    ensures r.None? <==> forall k | 0 <= k < |monitors| :: !monitors[k].adminStateUp
    ensures r.Some? ==> exists k | 0 <= k < |monitors| :: monitors[k] == r.value && r.value.adminStateUp
                          && forall j | 0 <= j < k :: !monitors[j].adminStateUp
  {
    if |monitors| == 0 then None
    else if monitors[0].adminStateUp then Some(monitors[0])
    else
      var r := FirstUpMonitor(monitors[1..]);
      if r.Some? then
        var k :| 0 <= k < |monitors[1..]| && monitors[1..][k] == r.value && r.value.adminStateUp
                 && forall j | 0 <= j < k :: !monitors[1..][j].adminStateUp;
        assert monitors[k + 1] == r.value && forall j | 0 <= j < k + 1 :: !monitors[j].adminStateUp;
        r
      else r
  }

  predicate HttpLike(m: Monitor)
  {
    m.kind == HttpMonitor || m.kind == HttpsMonitor
  }

  /** The addon of every server line and the backend options a monitor
      contributes. */
  datatype HealthOption = HealthOption(addon: string, opts: seq<string>)

  /** The options a monitor that is up contributes; `codes` is its expected
      codes joined with '|', or None when expanding them was a ValueError. */
  function MonitorOptions(m: Monitor, codes: Option<string>): (r: Result<HealthOption>)
    ensures r.Failure? <==> HttpLike(m) && codes.None?
    ensures r.Failure? ==> r.error == ValueError
    ensures r.Ok? ==>
              && r.value.addon == " check inter " + IntToString(m.delay) + "s fall " + IntToString(m.maxRetries)
              && |r.value.opts| == 1 + (if HttpLike(m) then 2 else 0) + (if m.kind == HttpsMonitor then 1 else 0)
              && r.value.opts[0] == "timeout check " + IntToString(m.timeout) + "s"
              && (HttpLike(m) ==> r.value.opts[1] == "option httpchk " + m.httpMethod + " " + m.urlPath
                                  && r.value.opts[2] == "http-check expect rstatus " + codes.value)
              && (m.kind == HttpsMonitor ==> r.value.opts[3] == "option ssl-hello-chk")
  {
    var addon := " check inter " + IntToString(m.delay) + "s fall " + IntToString(m.maxRetries);
    var timeout := ["timeout check " + IntToString(m.timeout) + "s"];
    if !HttpLike(m) then Ok(HealthOption(addon, timeout))
    else if codes.None? then Failure(ValueError)
    else
      var http := ["option httpchk " + m.httpMethod + " " + m.urlPath,
                   "http-check expect rstatus " + codes.value];
      var ssl := if m.kind == HttpsMonitor then ["option ssl-hello-chk"] else [];
      Ok(HealthOption(addon, timeout + http + ssl))
  }

  /** `_get_server_health_option`: nothing without a monitor that is up,
      otherwise the options of the first one. `codeOrder` is the order in
      which the set of expected codes happens to be iterated when it is
      joined with '|'; expanding the codes is a ValueError for a malformed
      range. */
  function ServerHealthOption(monitors: seq<Monitor>, codeOrder: seq<string>): (r: Result<HealthOption>)
    ensures FirstUpMonitor(monitors).None? ==> r == Ok(HealthOption("", []))
    ensures FirstUpMonitor(monitors).Some? ==>
              var m := FirstUpMonitor(monitors).value;
              && (r.Failure? <==> HttpLike(m) && ExpandedCodes(CodeTokens(m.expectedCodes)).None?)
              && (r.Ok? && HttpLike(m) ==> |r.value.opts| > 2 && r.value.opts[2] == "http-check expect rstatus " + Join(codeOrder, "|"))
  {
    match FirstUpMonitor(monitors)
    case None => Ok(HealthOption("", []))
    case Some(m) =>
      MonitorOptions(m, if ExpandedCodes(CodeTokens(m.expectedCodes)).Some? then Some(Join(codeOrder, "|")) else None)
  }

  /** The extra action and the backend options of a session persistence. */
  datatype PersistenceOption = PersistenceOption(extra: Option<ExtraAction>, opts: seq<string>)

  /** `_get_session_persistence`; `hasMembers` is the truth of the pool's
      member list. */
  function SessionPersistence(vip: Vip, hasMembers: bool): (r: PersistenceOption)
    ensures vip.persistence.None? ==> r == PersistenceOption(None, [])
    ensures r.extra.Some? <==> vip.persistence.Some? && vip.persistence.value.kind == AppCookie
                               && vip.persistence.value.cookieName.Some?
                               && vip.persistence.value.extraActions.Some?
    ensures r.extra.Some? ==> r.extra.value == ExtraAction(vip.persistence.value.cookieName.value,
                                                           vip.persistence.value.extraActions.value.maxAge)
    ensures vip.persistence.Some? && vip.persistence.value.kind == SourceIp ==>
              r.opts == ["stick-table type ip size 10k", "stick on src"]
    ensures vip.persistence.Some? && vip.persistence.value.kind == HttpCookie ==>
              r.opts == if hasMembers then ["cookie SRV insert indirect nocache"] else []
    ensures vip.persistence.Some? && vip.persistence.value.kind == AppCookie ==>
              r.opts == if vip.persistence.value.cookieName.Some?
                        then ["appsession " + vip.persistence.value.cookieName.value + " len 56 timeout 3h"]
                        else []
    ensures vip.persistence.Some? && vip.persistence.value.kind.OtherPersistence?
            ==> r == PersistenceOption(None, [])
  {
    match vip.persistence
    case None => PersistenceOption(None, [])
    case Some(p) =>
      if p.kind == SourceIp then
        PersistenceOption(None, ["stick-table type ip size 10k", "stick on src"])
      else if p.kind == HttpCookie && hasMembers then
        PersistenceOption(None, ["cookie SRV insert indirect nocache"])
      else if p.kind == AppCookie && p.cookieName.Some? then
        var extra := if p.extraActions.Some? then Some(ExtraAction(p.cookieName.value, p.extraActions.value.maxAge)) else None;
        PersistenceOption(extra, ["appsession " + p.cookieName.value + " len 56 timeout 3h"])
      else PersistenceOption(None, [])
  }

  /** `_has_http_cookie_persistence`. */
  predicate HasHttpCookiePersistence(vip: Vip)
  {
    vip.persistence.Some? && vip.persistence.value.kind == HttpCookie
  }

  // ---------------------------------------------------------------------
  // Sorting members and policies

  /** A comparison key; `cmp` in the code compares the parts in order. */
  datatype SortKey = SortKey(first: int, second: int, third: int)

  /** `cmp(a, b) <= 0` for the code's comparison by subtraction. */
  predicate KeyLe(a: SortKey, b: SortKey)
  {
    a.first < b.first || (a.first == b.first && (a.second < b.second || (a.second == b.second && a.third <= b.third)))
  }

  predicate SortedBy<T>(s: seq<T>, key: T -> SortKey)
  {
    forall i, j | 0 <= i < j < |s| :: KeyLe(key(s[i]), key(s[j]))
  }

  /** `_cmp_member`: priority, then the address as an integer, then the
      port. */
  function MemberKey(m: Member): SortKey
  {
    SortKey(m.priority, m.ip, m.protocolPort)
  }

  /** `_cmp_policies`: the priority alone. */
  function PolicyKey(e: PolicyEntry): SortKey
  {
    SortKey(e.priority, 0, 0)
  }

  /** `list.sort(cmp=...)` on keys: sorts `a` in place, as an insertion
      sort. */
  method SortByKey<T>(a: array<T>, key: T -> SortKey)
    modifies a
    ensures SortedBy(a[..], key)
    ensures multiset(a[..]) == multiset(old(a[..]))
  {
    var i := 0;
    while i < a.Length
      invariant 0 <= i <= a.Length
      invariant SortedBy(a[..i], key)
      invariant multiset(a[..]) == multiset(old(a[..]))
    {
      InsertLast(a, i, key);
      i := i + 1;
    }
    assert a[..a.Length] == a[..];
  }

  /** While `s[j]` moves down through `s[..i + 1]`: the other elements are
      in order, and the moving one is not above any element after it. */
  ghost predicate Inserting<T>(s: seq<T>, i: int, j: int, key: T -> SortKey)
  {
    && 0 <= j <= i < |s|
    && (forall k, l | 0 <= k < l <= i && k != j && l != j :: KeyLe(key(s[k]), key(s[l])))
    && (forall l | j < l <= i :: KeyLe(key(s[j]), key(s[l])))
  }

  lemma InsertingStep<T>(s: seq<T>, i: int, j: int, key: T -> SortKey)
    requires Inserting(s, i, j, key) && j > 0 && !KeyLe(key(s[j - 1]), key(s[j]))
    ensures Inserting(s[j - 1 := s[j]][j := s[j - 1]], i, j - 1, key)
  {
  }

  lemma InsertingDone<T>(s: seq<T>, i: int, j: int, key: T -> SortKey)
    requires Inserting(s, i, j, key) && (j == 0 || KeyLe(key(s[j - 1]), key(s[j])))
    ensures SortedBy(s[..i + 1], key)
  {
  }

  /** Exchanges `a[j - 1]` and `a[j]`. */
  method SwapDown<T>(a: array<T>, j: nat)
    requires 0 < j < a.Length
    modifies a
    ensures a[..] == old(a[..])[j - 1 := old(a[j])][j := old(a[j - 1])]
    ensures multiset(a[..]) == multiset(old(a[..]))
  {
    a[j - 1], a[j] := a[j], a[j - 1];
  }

  /** One step of the insertion sort: moves `a[i]` down into the sorted
      prefix `a[..i]`. */
  method InsertLast<T>(a: array<T>, i: nat, key: T -> SortKey)
    requires i < a.Length && SortedBy(a[..i], key)
    modifies a
    ensures SortedBy(a[..i + 1], key)
    ensures multiset(a[..]) == multiset(old(a[..]))
  {
    var j := i;
    assert Inserting(a[..], i, j, key);
    while j > 0 && !KeyLe(key(a[j - 1]), key(a[j]))
      invariant Inserting(a[..], i, j, key)
      invariant multiset(a[..]) == multiset(old(a[..]))
    {
      InsertingStep(a[..], i, j, key);
      SwapDown(a, j);
      j := j - 1;
    }
    InsertingDone(a[..], i, j, key);
  }

  // ---------------------------------------------------------------------
  // Policies and ACLs

  /** The options `_build_policy_and_acl` produces, and whether a server id
      is needed on every server line. */
  datatype PolicyOpts = PolicyOpts(needServerId: bool, opts: seq<string>)

  /** The ACL line and the action line of one rule of a policy. */
  function RuleOpts(policy: L7Policy, rule: Rule): (r: Result<seq<string>>)
    ensures r.Ok? <==> BuildAcl(rule).1.Ok? && BuildPolicyAction(policy, rule.id).Ok?
    ensures r.Ok? ==> r.value == [BuildAcl(rule).1.value, BuildPolicyAction(policy, rule.id).value]
    ensures r.Ok? ==> rule.kind == BackendServerId
  {
    var acl := BuildAcl(rule).1;
    if acl.Failure? then Failure(acl.error)
    else
      var action := BuildPolicyAction(policy, rule.id);
      if action.Failure? then Failure(action.error)
      else Ok([acl.value, action.value])
  }

  /** The inner loop of `_build_policy_and_acl` over a policy's rules. */
  function RulesPass(policy: L7Policy, rules: seq<Rule>): Result<PolicyOpts>
  {
    if |rules| == 0 then Ok(PolicyOpts(false, []))
    else
      var prior := RulesPass(policy, rules[..|rules| - 1]);
      var rule := rules[|rules| - 1];
      if prior.Failure? then prior
      else
        var step := RuleOpts(policy, rule);
        if step.Failure? then Failure(step.error)
        else Ok(PolicyOpts(prior.value.needServerId || rule.kind == BackendServerId,
                           prior.value.opts + step.value))
  }

  /** The outer loop of `_build_policy_and_acl` over the sorted policies. */
  function PoliciesPass(entries: seq<PolicyEntry>): Result<PolicyOpts>
  {
    if |entries| == 0 then Ok(PolicyOpts(false, []))
    else
      var prior := PoliciesPass(entries[..|entries| - 1]);
      var entry := entries[|entries| - 1];
      if prior.Failure? then prior
      else
        var step := RulesPass(entry.policy, entry.rules);
        if step.Failure? then step
        else Ok(PolicyOpts(prior.value.needServerId || step.value.needServerId,
                           prior.value.opts + step.value.opts))
  }

  /** The number of rules of all policies. */
  function RuleCount(entries: seq<PolicyEntry>): nat
  {
    if |entries| == 0 then 0 else RuleCount(entries[..|entries| - 1]) + |entries[|entries| - 1].rules|
  }

  /** A policy pass that succeeds has two lines per rule, and, since only
      backendServerId rules get through `_build_acl`, needs server ids
      exactly when there is a rule at all. */
  lemma {:induction false} RulesPassShape(policy: L7Policy, rules: seq<Rule>)
    requires RulesPass(policy, rules).Ok?
    ensures |RulesPass(policy, rules).value.opts| == 2 * |rules|
    ensures RulesPass(policy, rules).value.needServerId <==> |rules| > 0
  {
    if |rules| > 0 {
      var front := rules[..|rules| - 1];
      var last := rules[|rules| - 1];
      assert RulesPass(policy, front).Ok? && RuleOpts(policy, last).Ok?;
      assert BuildAcl(last).1.Ok?;
      RulesPassShape(policy, front);
    }
  }

  /** A rule the `_build_acl` type map knows. */
  predicate ServerIdRule(rule: Rule)
  {
    rule.kind == BackendServerId
  }

  /** Every rule of a policy pass that succeeds is a backendServerId rule. */
  lemma {:induction false} RulesPassKinds(policy: L7Policy, rules: seq<Rule>, k: nat)
    requires RulesPass(policy, rules).Ok? && k < |rules|
    ensures ServerIdRule(rules[k])
  {
    if k < |rules| - 1 {
      RulesPassKinds(policy, rules[..|rules| - 1], k);
    }
  }

  lemma {:induction false} PoliciesPassShape(entries: seq<PolicyEntry>)
    requires PoliciesPass(entries).Ok?
    ensures |PoliciesPass(entries).value.opts| == 2 * RuleCount(entries)
    ensures PoliciesPass(entries).value.needServerId <==> RuleCount(entries) > 0
  {
    if |entries| > 0 {
      var last := entries[|entries| - 1];
      PoliciesPassShape(entries[..|entries| - 1]);
      RulesPassShape(last.policy, last.rules);
    }
  }

  /** `_build_policy_and_acl`: sorts the policy entries in place by
      priority, then walks their rules in order. */
  method BuildPolicyAndAcl(policies: array<PolicyEntry>) returns (r: Result<PolicyOpts>)
    modifies policies
    ensures SortedBy(policies[..], PolicyKey) && multiset(policies[..]) == multiset(old(policies[..]))
    ensures r == PoliciesPass(policies[..])
  {
    SortByKey(policies, PolicyKey);
    r := WalkPolicies(policies[..]);
  }

  /** The loop over the sorted policy entries. */
  method WalkPolicies(entries: seq<PolicyEntry>) returns (r: Result<PolicyOpts>)
    ensures r == PoliciesPass(entries)
  {
    var needServerId := false;
    var opts: seq<string> := [];
    for i := 0 to |entries|
      invariant PoliciesPass(entries[..i]) == Ok(PolicyOpts(needServerId, opts))
    {
      assert entries[..i + 1][..i] == entries[..i];
      var step := RulesOfPolicy(entries[i].policy, entries[i].rules);
      if step.Failure? {
        PoliciesFailureSticks(entries, i + 1);
        return step;
      }
      needServerId := needServerId || step.value.needServerId;
      opts := opts + step.value.opts;
    }
    assert entries[..|entries|] == entries;
    return Ok(PolicyOpts(needServerId, opts));
  }

  /** The loop over one policy's rules. */
  method RulesOfPolicy(policy: L7Policy, rules: seq<Rule>) returns (r: Result<PolicyOpts>)
    ensures r == RulesPass(policy, rules)
  {
    var needServerId := false;
    var opts: seq<string> := [];
    for j := 0 to |rules|
      invariant RulesPass(policy, rules[..j]) == Ok(PolicyOpts(needServerId, opts))
    {
      assert rules[..j + 1][..j] == rules[..j];
      var rule := rules[j];
      if rule.kind == BackendServerId {
        needServerId := true;
      }
      var acl := BuildAcl(rule).1;
      if acl.Failure? {
        RulesFailureSticks(policy, rules, j + 1);
        return Failure(acl.error);
      }
      var action := BuildPolicyAction(policy, rule.id);
      if action.Failure? {
        RulesFailureSticks(policy, rules, j + 1);
        return Failure(action.error);
      }
      opts := opts + [acl.value, action.value];
    }
    assert rules[..|rules|] == rules;
    return Ok(PolicyOpts(needServerId, opts));
  }

  lemma {:induction false} RulesFailureSticks(policy: L7Policy, rules: seq<Rule>, n: nat)
    requires n <= |rules| && RulesPass(policy, rules[..n]).Failure?
    ensures RulesPass(policy, rules) == RulesPass(policy, rules[..n])
    decreases |rules| - n
  {
    if n < |rules| {
      assert rules[..n + 1][..n] == rules[..n];
      RulesFailureSticks(policy, rules, n + 1);
    } else {
      assert rules[..n] == rules;
    }
  }

  lemma {:induction false} PoliciesFailureSticks(entries: seq<PolicyEntry>, n: nat)
    requires n <= |entries| && PoliciesPass(entries[..n]).Failure?
    ensures PoliciesPass(entries) == PoliciesPass(entries[..n])
    decreases |entries| - n
  {
    if n < |entries| {
      assert entries[..n + 1][..n] == entries[..n];
      PoliciesFailureSticks(entries, n + 1);
    } else {
      assert entries[..n] == entries;
    }
  }

  // ---------------------------------------------------------------------
  // Members

  /** A member the backend serves: its status is one of the active or
      pending ones or INACTIVE, and its admin state is up. */
  predicate Eligible(m: Member)
  {
    (m.status in ActivePendingStatuses || m.status == Inactive) && m.adminStateUp
  }

  /** The eligible members, in order. */
  function EligibleMembers(ms: seq<Member>, n: nat): seq<Member>
    requires n <= |ms|
  {
    if n == 0 then []
    else EligibleMembers(ms, n - 1) + if Eligible(ms[n - 1]) then [ms[n - 1]] else []
  }

  /** The eligible members are exactly the members that are eligible. */
  lemma {:induction false} EligibleMembersAreEligible(ms: seq<Member>, n: nat, x: Member)
    requires n <= |ms|
    ensures x in EligibleMembers(ms, n) <==> x in ms[..n] && Eligible(x)
  {
    if n > 0 {
      EligibleMembersAreEligible(ms, n - 1, x);
      assert ms[..n] == ms[..n - 1] + [ms[n - 1]];
    }
  }

  /** `list.index`: the position of the first member equal to `m`. */
  function FirstIndex(s: seq<Member>, m: Member): (r: nat)
    requires m in s
    ensures r < |s| && s[r] == m && m !in s[..r]
  {
    if s[0] == m then 0
    else
      var r := FirstIndex(s[1..], m) + 1;
      assert s[..r] == [s[0]] + s[1..][..r - 1];
      r
  }

  /** The start of a member's server line, up to the health check addon. */
  function ServerHead(m: Member, addon: string): string
  {
    "server " + m.id + " " + m.address + ":" + IntToString(m.protocolPort) + " weight " + IntToString(m.weight) + addon
  }

  /** A server option: empty, or a space and a keyword other than `backup`. */
  predicate OptionText(t: string)
  {
    t == "" || (|t| >= 2 && t[0] == ' ' && t[1] != 'b')
  }

  lemma OptionTextConcat(a: string, b: string)
    requires OptionText(a) && OptionText(b)
    ensures OptionText(a + b)
  {
    if a == "" {
      assert a + b == b;
    }
  }

  /** ` <keyword> <value>` when the value is present. */
  function ServerOption(keyword: string, value: Option<string>): (t: string)
    requires |keyword| > 0 && keyword[0] != 'b'
    ensures OptionText(t)
    ensures value.Some? <==> t != ""
  {
    if value.None? then "" else " " + keyword + " " + value.value
  }

  /** The options following ` backup` on a server line. */
  function ServerOptions(id: Option<nat>, m: Member, cookie: Option<nat>): (t: string)
    ensures OptionText(t)
  {
    var a := ServerOption("id", if id.Some? then Some(IntToString(id.value)) else None);
    var b := ServerOption("addr", m.monitorAddress);
    var c := ServerOption("port", if m.monitorPort.Some? then Some(IntToString(m.monitorPort.value)) else None);
    var d := ServerOption("cookie", if cookie.Some? then Some(IntToString(cookie.value)) else None);
    OptionTextConcat(a, b);
    OptionTextConcat(a + b, c);
    OptionTextConcat(a + b + c, d);
    a + b + c + d
  }

  /** The line `head + backup + options` has ` backup` right after the
      head exactly when the backup flag is set. */
  lemma BackupFollowsHead(head: string, backup: bool, options: string)
    requires OptionText(options)
    ensures var line := head + (if backup then " backup" else "") + options;
            StartsWith(line, head) && (StartsWith(line[|head|..], " backup") <==> backup)
  {
    var line := head + (if backup then " backup" else "") + options;
    assert line[..|head|] == head;
    assert line[|head|..] == (if backup then " backup" else "") + options;
    if backup {
      assert line[|head|..][..7] == " backup";
    } else if options != "" {
      assert line[|head|..][1] != " backup"[1];
    }
  }

  /** The server line of an eligible member: ` backup` right after the head
      exactly for a priority below 256; then the member id when server ids
      are needed (a ValueError when the id is not hexadecimal), the monitor
      address and port when set, and the cookie index. */
  function ServerLine(m: Member, addon: string, needId: bool, cookie: Option<nat>): (r: Result<string>)
    ensures r.Failure? <==> needId && AclMemberId(m.id).None?
    ensures r.Failure? ==> r.error == ValueError
    ensures r.Ok? ==> StartsWith(r.value, ServerHead(m, addon))
    ensures r.Ok? ==> (StartsWith(r.value[|ServerHead(m, addon)|..], " backup") <==> m.priority < 256)
  {
    if needId && AclMemberId(m.id).None? then Failure(ValueError)
    else
      var head := ServerHead(m, addon);
      var options := ServerOptions(if needId then AclMemberId(m.id) else None, m, cookie);
      BackupFollowsHead(head, m.priority < 256, options);
      Ok(head + (if m.priority < 256 then " backup" else "") + options)
  }

  /** `_build_extra_action_for_member`: with a `max_age`, the ACL matching
      the member's server id and the header action setting its cookie
      (the member id must be hexadecimal: a ValueError otherwise). */
  function ExtraMemberOpts(extra: ExtraAction, m: Member): (r: Result<seq<string>>)
    ensures extra.maxAge.None? ==> r == Ok([])
    ensures extra.maxAge.Some? ==> (r.Ok? <==> AclMemberId(m.id).Some?)
    ensures r.Failure? ==> r.error == ValueError
    ensures extra.maxAge.Some? && r.Ok? ==>
              && |r.value| == 2
              && r.value[0] == "acl " + AclName(m.id) + " srv_id eq " + IntToString(AclMemberId(m.id).value)
              && r.value[1] == "rspadd " + EscapeSpaces("Set-Cookie: " + extra.cookieName + "=" + m.id
                                                        + "; Max-Age=" + extra.maxAge.value) + Condition(m.id)
  {
    if extra.maxAge.None? then Ok([])
    else
      match AclMemberId(m.id)
      case None => Failure(ValueError)
      case Some(n) =>
        var rule := Rule(m.id, BackendServerId, IntegerEq, Some(IntToString(n)), Some(Text(m.id)));
        var policy := L7Policy(AddHeader, Some("Set-Cookie: " + extra.cookieName + "=" + m.id
                                               + "; Max-Age=" + extra.maxAge.value));
        var acl := BuildAcl(rule).1;
        var action := BuildPolicyAction(policy, rule.id);
        Ok([acl.value, action.value])
  }

  /** What the member loop of `_build_backend` collects. */
  datatype MemberOpts = MemberOpts(extraOpts: seq<string>, serverLines: seq<string>)

  /** One eligible member of `all`: its extra action lines and its server
      line. The cookie index is the member's place in `all`; like
      `list.index`, looking up a member that is not there is a ValueError. */
  function MemberStep(all: seq<Member>, m: Member, addon: string, extra: Option<ExtraAction>,
                      needId: bool, cookie: bool): (r: Result<MemberOpts>)
    ensures r.Failure? ==> r.error == ValueError
    ensures r.Ok? ==> |r.value.serverLines| == 1 && StartsWith(r.value.serverLines[0], ServerHead(m, addon))
  {
    var extraOpts := if extra.Some? then ExtraMemberOpts(extra.value, m) else Ok([]);
    if extraOpts.Failure? then Failure(extraOpts.error)
    else if cookie && m !in all then Failure(ValueError)
    else
      var line := ServerLine(m, addon, needId, if cookie then Some(FirstIndex(all, m)) else None);
      if line.Failure? then Failure(line.error)
      else Ok(MemberOpts(extraOpts.value, [line.value]))
  }

  /** The member loop of `_build_backend` over the first `n` of the sorted
      members `all`, taking `step` for each eligible member and stopping at
      the first failure. */
  function CollectMembers(all: seq<Member>, n: nat, step: Member -> Result<MemberOpts>): Result<MemberOpts>
    requires n <= |all|
  {
    if n == 0 then Ok(MemberOpts([], []))
    else
      var prior := CollectMembers(all, n - 1, step);
      if prior.Failure? || !Eligible(all[n - 1]) then prior
      else if step(all[n - 1]).Failure? then step(all[n - 1])
      else Ok(MemberOpts(prior.value.extraOpts + step(all[n - 1]).value.extraOpts,
                         prior.value.serverLines + step(all[n - 1]).value.serverLines))
  }

  /** The step `_build_backend` takes for a member: server ids are needed
      when the policies asked for them or there is an extra action. */
  function ServerStep(all: seq<Member>, addon: string, extra: Option<ExtraAction>, needServerId: bool, cookie: bool)
    : Member -> Result<MemberOpts>
  {
    m => MemberStep(all, m, addon, extra, needServerId || extra.Some?, cookie)
  }

  /** A step writing one server line for each member it succeeds on. */
  ghost predicate WritesOneLine(step: Member -> Result<MemberOpts>)
  {
    forall m :: step(m).Ok? ==> |step(m).value.serverLines| == 1
  }

  lemma ServerStepWritesOneLine(all: seq<Member>, addon: string, extra: Option<ExtraAction>, needServerId: bool, cookie: bool)
    ensures WritesOneLine(ServerStep(all, addon, extra, needServerId, cookie))
  {
  }

  /** A member pass that succeeds writes one server line per eligible
      member. */
  lemma {:induction false} MemberLinesCount(all: seq<Member>, n: nat, step: Member -> Result<MemberOpts>)
    requires n <= |all| && CollectMembers(all, n, step).Ok? && WritesOneLine(step)
    ensures |CollectMembers(all, n, step).value.serverLines| == |EligibleMembers(all, n)|
  {
    if n > 0 {
      MemberLinesCount(all, n - 1, step);
    }
  }

  /** ... and the `k`-th server line is the one the step renders for the
      `k`-th eligible member: the lines follow the eligible members in
      order. */
  lemma {:induction false} MemberLinesFollowEligible(all: seq<Member>, n: nat, step: Member -> Result<MemberOpts>, k: nat)
    requires n <= |all| && CollectMembers(all, n, step).Ok? && WritesOneLine(step)
    requires k < |EligibleMembers(all, n)|
    ensures var lines := CollectMembers(all, n, step).value.serverLines;
            var m := EligibleMembers(all, n)[k];
            k < |lines| && step(m).Ok? && lines[k] == step(m).value.serverLines[0]
  {
    var prior := CollectMembers(all, n - 1, step);
    assert prior.Ok?;
    CollectNext(all, n - 1, step);
    MemberLinesCount(all, n - 1, step);
    var lines := CollectMembers(all, n, step).value.serverLines;
    if k < |EligibleMembers(all, n - 1)| {
      MemberLinesFollowEligible(all, n - 1, step, k);
      assert lines[k] == prior.value.serverLines[k];
    } else {
      assert lines[k] == step(all[n - 1]).value.serverLines[0];
    }
  }

  /** The member loop of `_build_backend`: the extra action lines and the
      server lines `step` renders for the eligible members of `all`, in
      order, up to the first failure. */
  method WalkMembers(all: seq<Member>, step: Member -> Result<MemberOpts>) returns (r: Result<MemberOpts>)
    ensures r == CollectMembers(all, |all|, step)
  {
    var extraOpts: seq<string> := [];
    var memberOpts: seq<string> := [];
    for i := 0 to |all|
      invariant CollectMembers(all, i, step) == Ok(MemberOpts(extraOpts, memberOpts))
    {
      var member := all[i];
      CollectNext(all, i, step);
      if Eligible(member) {
        var server := step(member);
        if server.Failure? {
          CollectFailureSticks(all, i + 1, step);
          return server;
        }
        extraOpts := extraOpts + server.value.extraOpts;
        memberOpts := memberOpts + server.value.serverLines;
      }
    }
    r := Ok(MemberOpts(extraOpts, memberOpts));
  }

  lemma CollectNext(all: seq<Member>, n: nat, step: Member -> Result<MemberOpts>)
    requires n < |all| && CollectMembers(all, n, step).Ok?
    ensures var prior := CollectMembers(all, n, step).value;
            CollectMembers(all, n + 1, step)
              == if !Eligible(all[n]) then CollectMembers(all, n, step)
                 else if step(all[n]).Failure? then step(all[n])
                 else Ok(MemberOpts(prior.extraOpts + step(all[n]).value.extraOpts,
                                    prior.serverLines + step(all[n]).value.serverLines))
  {
  }

  lemma {:induction false} CollectFailureSticks(all: seq<Member>, n: nat, step: Member -> Result<MemberOpts>)
    requires n <= |all| && CollectMembers(all, n, step).Failure?
    ensures CollectMembers(all, |all|, step) == CollectMembers(all, n, step)
    decreases |all| - n
  {
    if n < |all| {
      CollectFailureSticks(all, n + 1, step);
    }
  }

  // ---------------------------------------------------------------------
  // Health option and backend

  /** `codeOrder` lists the expected codes of the first monitor that is up,
      when that monitor checks over HTTP(S) and its codes expand. */
  ghost predicate CodesEnumerated(monitors: seq<Monitor>, codeOrder: seq<string>)
  {
    var m := FirstUpMonitor(monitors);
    m.Some? && HttpLike(m.value) && ExpandedCodes(CodeTokens(m.value.expectedCodes)).Some?
    ==> Enumerates(codeOrder, ExpandedCodes(CodeTokens(m.value.expectedCodes)).value)
  }

  /** `_get_server_health_option`: finds the first monitor that is up and
      renders its options; `codeOrder` is the order the set of expected
      codes was joined in. */
  method GetServerHealthOption(monitors: seq<Monitor>) returns (r: Result<HealthOption>, ghost codeOrder: seq<string>)
    ensures r == ServerHealthOption(monitors, codeOrder) && CodesEnumerated(monitors, codeOrder)
  {
    codeOrder := [];
    var k := 0;
    while k < |monitors| && !monitors[k].adminStateUp
      invariant 0 <= k <= |monitors|
      invariant forall j | 0 <= j < k :: !monitors[j].adminStateUp
    {
      k := k + 1;
    }
    if k == |monitors| {
      return Ok(HealthOption("", [])), codeOrder;
    }
    var monitor := monitors[k];
    FirstUpMonitorAt(monitors, k);
    var joined: Option<string> := None;
    if HttpLike(monitor) {
      var codes := ExpandExpectedCodes(monitor.expectedCodes);
      if codes.Some? {
        var order := SetToSeq(codes.value);
        codeOrder := order;
        joined := Some(Join(order, "|"));
      }
    }
    r := MonitorOptions(monitor, joined);
  }

  lemma FirstUpMonitorAt(monitors: seq<Monitor>, k: nat)
    requires k < |monitors| && monitors[k].adminStateUp
    requires forall j | 0 <= j < k :: !monitors[j].adminStateUp
    ensures FirstUpMonitor(monitors) == Some(monitors[k])
  {
    if k > 0 {
      FirstUpMonitorAt(monitors[1..], k - 1);
    }
  }

  /** What `_build_backend` renders for sorted policy entries and sorted
      members: mode, balance and `option forwardfor` for HTTP, the health
      options, the persistence options, the policy lines, the extra action
      lines of the members and their server lines. */
  function BackendLines(pool: Pool, vip: Vip, monitors: seq<Monitor>, policies: seq<PolicyEntry>,
                        members: seq<Member>, codeOrder: seq<string>): Result<seq<string>>
  {
    var health := ServerHealthOption(monitors, codeOrder);
    var persist := SessionPersistence(vip, |members| > 0);
    var pol := PoliciesPass(policies);
    if health.Failure? then Failure(health.error)
    else if pol.Failure? then Failure(pol.error)
    else
      var step := ServerStep(members, health.value.addon, persist.extra, pol.value.needServerId,
                             HasHttpCookiePersistence(vip));
      var mem := CollectMembers(members, |members|, step);
      if mem.Failure? then Failure(mem.error)
      else Ok(BackendSection(pool, health.value, persist, pol.value, mem.value))
  }

  /** The backend section assembled from its parts. */
  function BackendSection(pool: Pool, health: HealthOption, persist: PersistenceOption, pol: PolicyOpts,
                          mem: MemberOpts): seq<string>
  {
    var opts := ["mode " + Mode(pool.protocol), "balance " + Balance(pool.lbMethod)]
                + (if pool.protocol == HTTP then ["option forwardfor"] else [])
                + health.opts + persist.opts + pol.opts
                + mem.extraOpts + mem.serverLines;
    Section("backend " + pool.id, opts)
  }

  /** `_build_backend`. A failing health check leaves both arrays as they
      were; otherwise the members are sorted in place by priority, address
      and port and the policy entries by priority, and the lines are those
      of the sorted arrays. */
  method BuildBackend(pool: Pool, vip: Vip, monitors: seq<Monitor>, policies: array<PolicyEntry>,
                      members: array<Member>) returns (r: Result<seq<string>>, ghost codeOrder: seq<string>)
    modifies policies, members
    ensures CodesEnumerated(monitors, codeOrder)
    ensures ServerHealthOption(monitors, codeOrder).Failure? ==>
              r.Failure? && policies[..] == old(policies[..]) && members[..] == old(members[..])
    ensures ServerHealthOption(monitors, codeOrder).Ok? ==>
              && SortedBy(members[..], MemberKey) && multiset(members[..]) == multiset(old(members[..]))
              && SortedBy(policies[..], PolicyKey) && multiset(policies[..]) == multiset(old(policies[..]))
    ensures r == BackendLines(pool, vip, monitors, policies[..], members[..], codeOrder)
  {
    var opts := ["mode " + Mode(pool.protocol), "balance " + Balance(pool.lbMethod)];
    opts := opts + if pool.protocol == HTTP then ["option forwardfor"] else [];
    var health;
    health, codeOrder := GetServerHealthOption(monitors);
    if health.Failure? {
      return Failure(health.error), codeOrder;
    }
    opts := opts + health.value.opts;
    var persist := SessionPersistence(vip, members.Length > 0);
    opts := opts + persist.opts;
    SortByKey(members, MemberKey);
    var pol := BuildPolicyAndAcl(policies);
    if pol.Failure? {
      return Failure(pol.error), codeOrder;
    }
    opts := opts + pol.value.opts;
    var mem := WalkMembers(members[..], ServerStep(members[..], health.value.addon, persist.extra,
                                                   pol.value.needServerId, HasHttpCookiePersistence(vip)));
    if mem.Failure? {
      return Failure(mem.error), codeOrder;
    }
    opts := opts + mem.value.extraOpts + mem.value.serverLines;
    r := Ok(Section("backend " + pool.id, opts));
    assert r == Ok(BackendSection(pool, health.value, persist, pol.value, mem.value));
  }

  /** A backend starts with its header, its mode and its balance, and an
      HTTP pool forwards the client address next. */
  lemma BackendStartsWithModeAndBalance(pool: Pool, vip: Vip, monitors: seq<Monitor>, policies: seq<PolicyEntry>,
                                        members: seq<Member>, codeOrder: seq<string>)
    requires BackendLines(pool, vip, monitors, policies, members, codeOrder).Ok?
    ensures var lines := BackendLines(pool, vip, monitors, policies, members, codeOrder).value;
            && |lines| >= 3
            && lines[0] == "backend " + pool.id
            && lines[1] == "\t" + ("mode " + Mode(pool.protocol))
            && lines[2] == "\t" + ("balance " + Balance(pool.lbMethod))
            && (pool.protocol == HTTP ==> |lines| > 3 && lines[3] == "\toption forwardfor")
  {
    var health := ServerHealthOption(monitors, codeOrder).value;
    var persist := SessionPersistence(vip, |members| > 0);
    var pol := PoliciesPass(policies).value;
    var step := ServerStep(members, health.addon, persist.extra, pol.needServerId, HasHttpCookiePersistence(vip));
    var mem := CollectMembers(members, |members|, step).value;
    SectionStartsWithModeAndBalance(pool, health, persist, pol, mem);
  }

  lemma SectionStartsWithModeAndBalance(pool: Pool, health: HealthOption, persist: PersistenceOption, pol: PolicyOpts,
                                        mem: MemberOpts)
    ensures var lines := BackendSection(pool, health, persist, pol, mem);
            && |lines| >= 3
            && lines[0] == "backend " + pool.id
            && lines[1] == "\t" + ("mode " + Mode(pool.protocol))
            && lines[2] == "\t" + ("balance " + Balance(pool.lbMethod))
            && (pool.protocol == HTTP ==> |lines| > 3 && lines[3] == "\toption forwardfor")
  {
  }

  /** A backend ends with the server lines of its eligible members, in the
      order of the sorted members, each carrying the health check addon. */
  lemma BackendEndsWithServers(pool: Pool, vip: Vip, monitors: seq<Monitor>, policies: seq<PolicyEntry>,
                               members: seq<Member>, codeOrder: seq<string>, k: nat)
    requires BackendLines(pool, vip, monitors, policies, members, codeOrder).Ok?
    requires k < |EligibleMembers(members, |members|)|
    ensures var lines := BackendLines(pool, vip, monitors, policies, members, codeOrder).value;
            var e := EligibleMembers(members, |members|);
            var addon := ServerHealthOption(monitors, codeOrder).value.addon;
            |e| < |lines| && StartsWith(lines[|lines| - |e| + k], "\t" + ServerHead(e[k], addon))
  {
    var health := ServerHealthOption(monitors, codeOrder).value;
    var persist := SessionPersistence(vip, |members| > 0);
    var pol := PoliciesPass(policies).value;
    var step := ServerStep(members, health.addon, persist.extra, pol.needServerId, HasHttpCookiePersistence(vip));
    var e := EligibleMembers(members, |members|);
    var lines := BackendSection(pool, health, persist, pol, CollectMembers(members, |members|, step).value);
    assert BackendLines(pool, vip, monitors, policies, members, codeOrder).value == lines;
    ServerStepWritesOneLine(members, health.addon, persist.extra, pol.needServerId, HasHttpCookiePersistence(vip));
    SectionEndsWithLines(pool, health, persist, pol, members, step, k);
    var line := step(e[k]).value.serverLines[0];
    assert lines[|lines| - |e| + k] == "\t" + line;
    assert StartsWith(line, ServerHead(e[k], health.addon));
    StartsWithPrepend("\t", line, ServerHead(e[k], health.addon));
  }

  lemma SectionEndsWithLines(pool: Pool, health: HealthOption, persist: PersistenceOption, pol: PolicyOpts,
                             members: seq<Member>, step: Member -> Result<MemberOpts>, k: nat)
    requires CollectMembers(members, |members|, step).Ok? && WritesOneLine(step)
    requires k < |EligibleMembers(members, |members|)|
    ensures var lines := BackendSection(pool, health, persist, pol, CollectMembers(members, |members|, step).value);
            var e := EligibleMembers(members, |members|);
            && |e| < |lines| && step(e[k]).Ok?
            && lines[|lines| - |e| + k] == "\t" + step(e[k]).value.serverLines[0]
  {
    var mem := CollectMembers(members, |members|, step).value;
    MemberLinesCount(members, |members|, step);
    MemberLinesFollowEligible(members, |members|, step, k);
    SectionEndsWithServers(pool, health, persist, pol, mem, k);
  }

  lemma SectionEndsWithServers(pool: Pool, health: HealthOption, persist: PersistenceOption, pol: PolicyOpts,
                               mem: MemberOpts, k: nat)
    requires k < |mem.serverLines|
    ensures var lines := BackendSection(pool, health, persist, pol, mem);
            |mem.serverLines| < |lines| && lines[|lines| - |mem.serverLines| + k] == "\t" + mem.serverLines[k]
  {
    var front := ["mode " + Mode(pool.protocol), "balance " + Balance(pool.lbMethod)]
                 + (if pool.protocol == HTTP then ["option forwardfor"] else [])
                 + health.opts + persist.opts + pol.opts + mem.extraOpts;
    var opts := front + mem.serverLines;
    assert opts[|front| + k] == mem.serverLines[k];
  }
}
