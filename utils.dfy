/** The API helpers: the `APIException` error type, the sitemap of GET
    routes, and the decorators that admit only providers or only customers. */
module Utils {
  import opened Wrappers
  import opened Seqs
  import opened Json
  import opened Models
  import Text

  // ------------------------------------------------------------ APIException

  /** An error a handler raises to send `to_dict()` with `status_code`. */
  class ApiException {
    var message: string
    var statusCode: int
    var payload: Option<map<string, Value>>

    /** The status is 400 unless one is given. */
    constructor (message: string, statusCode: Option<int>, payload: Option<map<string, Value>>)
      ensures this.message == message && this.payload == payload
      ensures this.statusCode == if statusCode.Some? then statusCode.value else 400
    {
      this.message := message;
      this.statusCode := 400;
      if statusCode.Some? {
        this.statusCode := statusCode.value;
      }
      this.payload := payload;
    }

    /** `to_dict`: every payload entry, with 'message' set to the message
        whatever the payload held under that key. */
    method ToDict() returns (rv: map<string, Value>)
      ensures "message" in rv && rv["message"] == Str(message)
      ensures forall k :: k != "message" ==> (k in rv <==> payload.Some? && k in payload.value)
      ensures forall k :: k in rv && k != "message" ==> payload.Some? && rv[k] == payload.value[k]
    {
      // `dict(self.payload or ())`: an absent or empty payload gives {}.
      rv := if payload.Some? then payload.value else map[];
      rv := rv["message" := Str(message)];
    }
  }

  /** With no payload the dictionary holds only the message. */
  method ToDictWithoutPayload(message: string, statusCode: Option<int>) returns (rv: map<string, Value>)
    ensures rv == map["message" := Str(message)]
  {
    var e := new ApiException(message, statusCode, None);
    rv := e.ToDict();
  }

  // ---------------------------------------------------------------- sitemap

  /** A URL rule of the application: its text, its methods, its default
      values and its variable parts (`None` when the router has none). */
  datatype Rule = Rule(url: string, methods: set<string>, defaults: Option<map<string, Value>>, arguments: Option<set<string>>)

  function DefaultNames(rule: Rule): set<string> { if rule.defaults.Some? then rule.defaults.value.Keys else {} }
  function ArgumentNames(rule: Rule): set<string> { if rule.arguments.Some? then rule.arguments.value else {} }

  /** `has_no_empty_params`: at least as many defaults as arguments, an absent
      collection counting as empty. */
  function HasNoEmptyParams(rule: Rule): bool
  {
    |DefaultNames(rule)| >= |ArgumentNames(rule)|
  }

  /** When every default belongs to an argument, the rule qualifies exactly
      when every argument has a default, i.e. it can be linked without values. */
  lemma HasNoEmptyParamsIff(rule: Rule)
    requires DefaultNames(rule) <= ArgumentNames(rule)
    ensures HasNoEmptyParams(rule) <==> ArgumentNames(rule) <= DefaultNames(rule)
  {
    var d, a := DefaultNames(rule), ArgumentNames(rule);
    if HasNoEmptyParams(rule) {
      SubsetOfSameSize(d, a);
    }
    if a <= d {
      EqualSetsSameSize(d, a);
    }
  }

  lemma EqualSetsSameSize<T>(d: set<T>, a: set<T>)
    requires d <= a && a <= d
    ensures |d| == |a|
  {
    assert d == a;
  }

  lemma SubsetOfSameSize<T>(d: set<T>, a: set<T>)
    requires d <= a && |d| >= |a|
    ensures a <= d
  {
    if !(a <= d) {
      var x :| x in a && x !in d;
      SubsetSize(d, a - {x});
    }
  }

  lemma {:induction false} SubsetSize<T>(d: set<T>, a: set<T>)
    requires d <= a
    ensures |d| <= |a|
    decreases d
  {
    if d != {} {
      var x :| x in d;
      SubsetSize(d - {x}, a - {x});
    }
  }

  const AdminPath := "/admin/"

  /** `"/admin/" in url`. */
  predicate MentionsAdmin(url: string)
  {
    Text.Contains(url, AdminPath)
  }

  /** The rules the sitemap lists after '/admin/'. */
  predicate Listed(rule: Rule)
  {
    "GET" in rule.methods && HasNoEmptyParams(rule) && !MentionsAdmin(rule.url)
  }

  function Urls(rules: seq<Rule>): (r: seq<string>)
    ensures |r| == |rules| && forall k :: 0 <= k < |rules| ==> r[k] == rules[k].url
  {
    seq(|rules|, k requires 0 <= k < |rules| => rules[k].url)
  }

  /** The links `generate_sitemap` renders: '/admin/' and then the URLs of the
      listed rules, in rule order. */
  function Sitemap(rules: seq<Rule>): (links: seq<string>)
    ensures |links| == 1 + CountIf(rules, Listed) && links[0] == AdminPath
  {
    FilterLength(rules, Listed);
    [AdminPath] + Urls(Filter(rules, Listed))
  }

  /** The link collection of `generate_sitemap`. */
  method SitemapLinks(rules: seq<Rule>) returns (links: seq<string>)
    ensures links == Sitemap(rules)
  {
    links := [AdminPath];
    var i := 0;
    while i < |rules|
      invariant 0 <= i <= |rules|
      invariant links == [AdminPath] + Urls(Filter(rules[..i], Listed))
    {
      var rule := rules[i];
      assert rules[..i + 1] == rules[..i] + [rule];
      FilterConcat(rules[..i], [rule], Listed);
      if "GET" in rule.methods && HasNoEmptyParams(rule) {
        var url := rule.url;
        if !MentionsAdmin(url) {
          links := links + [url];
        }
      }
      i := i + 1;
    }
    assert rules[..i] == rules;
  }

  /** The sitemap starts with '/admin/'; every later link is the URL of a
      listed rule, so none of them mentions '/admin/'; and every listed rule's
      URL appears. */
  lemma SitemapSpec(rules: seq<Rule>)
    ensures Sitemap(rules)[0] == AdminPath
    ensures forall k :: 1 <= k < |Sitemap(rules)| ==> !MentionsAdmin(Sitemap(rules)[k])
    ensures forall k :: 1 <= k < |Sitemap(rules)| ==> UrlOfListedRule(rules, Sitemap(rules)[k])
    ensures forall r :: r in rules && Listed(r) ==> r.url in Sitemap(rules)[1..]
  {
    SitemapSound(rules);
    SitemapComplete(rules);
    forall k | 1 <= k < |Sitemap(rules)| ensures UrlOfListedRule(rules, Sitemap(rules)[k]) {
      var r := Filter(rules, Listed)[k - 1];
      assert r in rules && Listed(r) && Sitemap(rules)[k - 1 + 1] == r.url;
    }
  }

  /** `url` is the URL of one of the listed rules. */
  ghost predicate UrlOfListedRule(rules: seq<Rule>, url: string)
  {
    exists r :: r in rules && Listed(r) && r.url == url
  }

  lemma SitemapSound(rules: seq<Rule>)
    ensures |Sitemap(rules)| == |Filter(rules, Listed)| + 1
    ensures forall j :: 0 <= j < |Filter(rules, Listed)| ==>
      Filter(rules, Listed)[j] in rules && Listed(Filter(rules, Listed)[j])
      && Sitemap(rules)[j + 1] == Filter(rules, Listed)[j].url
  {
    forall j | 0 <= j < |Filter(rules, Listed)|
      ensures Filter(rules, Listed)[j] in rules && Listed(Filter(rules, Listed)[j])
    {
      FilterMember(rules, Listed, j);
    }
  }

  lemma SitemapComplete(rules: seq<Rule>)
    ensures forall r :: r in rules && Listed(r) ==> r.url in Sitemap(rules)[1..]
  {
    var listed := Filter(rules, Listed);
    assert Sitemap(rules)[1..] == Urls(listed);
    forall r | r in rules && Listed(r) ensures r.url in Urls(listed) {
      FilterCounts(rules, Listed, r);
      assert r in multiset(listed);
      var k :| 0 <= k < |listed| && listed[k] == r;
      assert Urls(listed)[k] == r.url;
    }
  }

  // -------------------------------------------------------------- role gates

  /** The outcome of a role decorator: the handler runs for `user`, or the
      request is answered without running it. */
  datatype Gate = Proceed(user: User) | Refused(reply: Reply)

  /** The primary-key lookup `User.query.get(id)`. */
  function FindUser(users: seq<User>, id: nat): Option<User>
  {
    match FirstWhere(users, (u: User) => u.id == id)
    case None => None
    case Some(k) => Some(users[k])
  }

  /** `provider_required` (role "provider") and `customer_required` (role
      "customer"), after the token has been verified: `identity` is the
      token's subject, which `int` must read as a number. */
  function RequireRole(users: seq<User>, identity: string, role: string): (g: Gate)
    requires role == "provider" || role == "customer"
    ensures g.Proceed? <==>
      Text.ParseNat(identity).Some? && FindUser(users, Text.ParseNat(identity).value).Some?
      && FindUser(users, Text.ParseNat(identity).value).value.role == Str(role)
    ensures g.Proceed? ==> g.user.role == Str(role) && g.user.id == Text.ParseNat(identity).value
    ensures g.Refused? && Text.ParseNat(identity).Some? ==>
      g.reply == Message(403, if role == "provider" then "Provider access required" else "Customer access required")
    ensures Text.ParseNat(identity).None? ==> g == Refused(InternalServerError)
  {
    match Text.ParseNat(identity)
    case None => Refused(InternalServerError)
    case Some(id) =>
      var found := FindUser(users, id);
      if found.None? || found.value.role != Str(role) then
        Refused(Message(403, if role == "provider" then "Provider access required" else "Customer access required"))
      else
        assert found.value.id == id by {
          var k := FirstWhere(users, (u: User) => u.id == id).value;
          assert users[k].id == id;
        }
        Proceed(found.value)
  }
}
