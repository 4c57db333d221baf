/**
 * The in-browser mock API: ticker search over the mock companies, the news
 * list with its query, tag and date-order options, the news lookups, and
 * the mock sign-in, sign-up and profile calls over the mock user list.
 * The mock data files are parameters; the artificial delays are dropped.
 */
module FakeApi {
  import opened Wrappers
  import opened Strings
  import opened Seqs
  import opened Sorting

  // ---------------------------------------------------------------------------
  // `searchTickers`

  datatype Company = Company(symbol: string, name: string, sector: string)

  predicate TickerMatches(c: Company, query: string) {
    Contains(Lower(c.symbol), Lower(query)) || Contains(Lower(c.name), Lower(query))
  }

  /**
   * The companies whose lower-cased symbol or name contains the lower-cased
   * query, in their order; unlike the company search, an empty or blank
   * query is not special-cased.
   */
  function SearchTickers(companies: seq<Company>, query: string): (r: seq<Company>)
    ensures forall c :: c in r <==> c in companies && TickerMatches(c, query)
    ensures IsSubsequence(r, companies)
  {
    FilterIsSubsequence(companies, (c: Company) => TickerMatches(c, query));
    Filter(companies, (c: Company) => TickerMatches(c, query))
  }

  lemma EmptyOccurs(s: string)
    ensures Contains(s, "")
  {
    assert OccursAt(s, "", 0);
  }

  /** The empty query is contained in every text, so it returns every company in order. */
  lemma EmptyQueryReturnsAll(companies: seq<Company>)
    ensures SearchTickers(companies, "") == companies
  {
    forall i | 0 <= i < |companies| ensures TickerMatches(companies[i], "") {
      EmptyOccurs(Lower(companies[i].symbol));
    }
    FilterAll(companies, (c: Company) => TickerMatches(c, ""));
  }

  /** The search ignores the case of the query. */
  lemma SearchTickersIgnoresCase(companies: seq<Company>, query: string)
    ensures SearchTickers(companies, Lower(query)) == SearchTickers(companies, query)
  {
    LowerIdempotent(query);
    FilterAgree(companies, (c: Company) => TickerMatches(c, Lower(query)), (c: Company) => TickerMatches(c, query));
  }

  // ---------------------------------------------------------------------------
  // News

  datatype NewsArticle = NewsArticle(
    id: string, title: string, source: string, publishedDate: string,
    summary: string, tags: seq<string>, content: Option<string>)

  /** An optional string argument that JavaScript treats as true: present and not empty. */
  predicate Truthy(s: Option<string>) {
    s.Some? && s.value != ""
  }

  /** The lower-cased query occurs in the title, the summary or the content, if there is one. */
  predicate ArticleMatches(a: NewsArticle, query: string) {
    Contains(Lower(a.title), Lower(query)) || Contains(Lower(a.summary), Lower(query)) ||
    (a.content.Some? && Contains(Lower(a.content.value), Lower(query)))
  }

  /** The articles the query and the tag let through, in their order. */
  function Selected(news: seq<NewsArticle>, query: Option<string>, tag: Option<string>): (r: seq<NewsArticle>)
    ensures forall a :: a in r <==> a in news && (Truthy(query) ==> ArticleMatches(a, query.value)) && (Truthy(tag) ==> tag.value in a.tags)
    ensures multiset(r) <= multiset(news)
    ensures IsSubsequence(r, news)
  {
    var byQuery := if Truthy(query) then Filter(news, (a: NewsArticle) => ArticleMatches(a, query.GetOr(""))) else news;
    FilterSubMultiset(news, (a: NewsArticle) => ArticleMatches(a, query.GetOr("")));
    FilterSubMultiset(byQuery, (a: NewsArticle) => tag.GetOr("") in a.tags);
    var r := if Truthy(tag) then Filter(byQuery, (a: NewsArticle) => tag.GetOr("") in a.tags) else byQuery;
    FilterEitherIsSubsequence(news, (a: NewsArticle) => ArticleMatches(a, query.GetOr("")), (a: NewsArticle) => tag.GetOr("") in a.tags,
                              Truthy(query), Truthy(tag), byQuery, r);
    r
  }

  /**
   * The comparator's order: "oldest" puts earlier publication times first,
   * anything else (or nothing) puts later ones first. `timeOf` stands for
   * `new Date(date).getTime()`.
   */
  function DateOrder(sort: Option<string>, timeOf: string -> int): (r: (NewsArticle, NewsArticle) -> bool)
    ensures TotalPreorder(r)
    ensures forall a: NewsArticle, b: NewsArticle :: r(a, b) && r(b, a) <==> timeOf(a.publishedDate) == timeOf(b.publishedDate)
    ensures sort == Some("oldest") ==> forall a: NewsArticle, b: NewsArticle :: timeOf(a.publishedDate) < timeOf(b.publishedDate) ==> !r(b, a)
    ensures sort != Some("oldest") ==> forall a: NewsArticle, b: NewsArticle :: timeOf(a.publishedDate) < timeOf(b.publishedDate) ==> !r(a, b)
  {
    if sort == Some("oldest") then
      (a: NewsArticle, b: NewsArticle) => timeOf(a.publishedDate) <= timeOf(b.publishedDate)
    else
      (a: NewsArticle, b: NewsArticle) => timeOf(b.publishedDate) <= timeOf(a.publishedDate)
  }

  /**
   * `newsList`: a copy of the articles, narrowed by a non-empty query and by
   * a non-empty tag, then sorted by publication time, oldest first for
   * "oldest" and newest first otherwise. The result holds exactly the
   * selected articles, each as often as in the selection; it is in date
   * order; and articles published at the same time keep their order.
   */
  method NewsList(news: seq<NewsArticle>, query: Option<string>, tag: Option<string>, sort: Option<string>, timeOf: string -> int)
    returns (articles: seq<NewsArticle>)
    ensures forall a :: a in articles <==> a in news && (Truthy(query) ==> ArticleMatches(a, query.value)) && (Truthy(tag) ==> tag.value in a.tags)
    ensures multiset(articles) == multiset(Selected(news, query, tag)) && multiset(articles) <= multiset(news)
    ensures Sorted(articles, DateOrder(sort, timeOf))
    ensures forall k :: Block(articles, DateOrder(sort, timeOf), k) == Block(Selected(news, query, tag), DateOrder(sort, timeOf), k)
  {
    articles := news;
    if Truthy(query) {
      articles := Filter(articles, (a: NewsArticle) => ArticleMatches(a, query.GetOr("")));
    }
    if Truthy(tag) {
      articles := Filter(articles, (a: NewsArticle) => tag.GetOr("") in a.tags);
    }
    assert articles == Selected(news, query, tag);
    var selected := articles;
    var order := DateOrder(sort, timeOf);
    articles := SortBy(selected, order);
    SortByPermutation(selected, order);
    SortBySorted(selected, order);
    forall k ensures Block(articles, order, k) == Block(selected, order, k) {
      SortByStable(selected, order, k);
    }
    forall a ensures a in articles <==> a in selected {
      assert a in articles <==> a in multiset(articles);
    }
  }

  /** `newsGetById`: the first article with the id, or nothing when no article has it. */
  function NewsGetById(news: seq<NewsArticle>, id: string): (r: Option<NewsArticle>)
    ensures r.None? <==> forall i :: 0 <= i < |news| ==> news[i].id != id
    ensures r.Some? ==> exists i :: 0 <= i < |news| && news[i] == r.value && r.value.id == id && forall j :: 0 <= j < i ==> news[j].id != id
  {
    var r := Find(news, (a: NewsArticle) => a.id == id);
    r
  }

  /** Every tag of every article. */
  function TagsOf(news: seq<NewsArticle>): (tags: set<string>)
    ensures forall t :: t in tags <==> exists i :: 0 <= i < |news| && t in news[i].tags
  {
    if news == [] then {}
    else
      var init := news[..|news| - 1];
      var last := news[|news| - 1].tags;
      var tags := TagsOf(init) + set k | 0 <= k < |last| :: last[k];
      assert forall i :: 0 <= i < |init| ==> init[i] == news[i];
      tags
  }

  /** Each element occurs at most once. */
  ghost predicate Distinct(s: seq<string>) {
    forall t :: multiset(s)[t] <= 1
  }

  lemma LexLeIsTotalPreorder()
    ensures TotalPreorder(LexLe)
  {
    forall a, b ensures LexLe(a, b) || LexLe(b, a) {
      LexTotal(a, b);
    }
    forall a, b, c | LexLe(a, b) && LexLe(b, c) ensures LexLe(a, c) {
      LexTransitive(a, b, c);
    }
  }

  /** The inner `forEach` of `newsGetAllTags`: adds each tag of `more` to the set of tags seen so far. */
  method AddTags(seen: seq<string>, more: seq<string>) returns (r: seq<string>)
    requires Distinct(seen)
    ensures Distinct(r)
    ensures forall t :: t in r <==> t in seen || t in more
  {
    r := seen;
    var j := 0;
    while j < |more|
      invariant 0 <= j <= |more|
      invariant Distinct(r)
      invariant forall t :: t in r <==> t in seen || t in more[..j]
    {
      var t := more[j];
      if t !in r {
        assert multiset(r)[t] == 0;
        r := r + [t];
      }
      assert more[..j + 1] == more[..j] + [t];
      j := j + 1;
    }
    assert more[..j] == more;
  }

  /**
   * `newsGetAllTags`: every tag of every article, each once, sorted by the
   * default `sort()` order of strings.
   */
  method NewsGetAllTags(news: seq<NewsArticle>) returns (tags: seq<string>)
    ensures forall t :: t in tags <==> t in TagsOf(news)
    ensures Distinct(tags)
    ensures Sorted(tags, LexLe)
  {
    var seen: seq<string> := [];
    var i := 0;
    while i < |news|
      invariant 0 <= i <= |news|
      invariant forall t :: t in seen <==> t in TagsOf(news[..i])
      invariant Distinct(seen)
    {
      seen := AddTags(seen, news[i].tags);
      assert news[..i + 1][..i] == news[..i];
      i := i + 1;
    }
    assert news[..i] == news;
    LexLeIsTotalPreorder();
    tags := SortBy(seen, LexLe);
    SortByPermutation(seen, LexLe);
    SortBySorted(seen, LexLe);
    forall t ensures t in tags <==> t in seen {
      assert t in tags <==> t in multiset(tags);
    }
  }

  // ---------------------------------------------------------------------------
  // Mock authentication

  /** A record of the mock user file, password included. */
  datatype MockUser = MockUser(
    id: string, name: string, email: string, password: string,
    displayName: string, bio: string, joinedDate: string)

  /** A user as the API returns it: there is no password field. */
  datatype User = User(id: string, name: string, email: string, displayName: string, bio: string, joinedDate: string)

  datatype AuthResponse = AuthResponse(user: User, token: string)

  const EmailNotFound := "Email not found"
  const InvalidPassword := "Invalid password"
  const EmailExists := "Email already exists"
  const NoToken := "No token provided"
  /** What reading `id` of the missing first user throws. */
  const NoMockUser := "Cannot read properties of undefined (reading 'id')"

  function PublicUser(u: MockUser): User {
    User(u.id, u.name, u.email, u.displayName, u.bio, u.joinedDate)
  }

  /** `token_<id>_<time>`. */
  function Token(id: string, now: nat): (r: string)
    ensures |r| > 7 + |id| && r[..6] == "token_" && r[6..6 + |id|] == id && r[6 + |id|] == '_'
    ensures AllDigits(r[7 + |id|..]) && DigitsValue(r[7 + |id|..]) == now
  {
    var r := "token_" + id + "_" + NatToString(now);
    assert r[..6] == "token_" && r[6..6 + |id|] == id && r[7 + |id|..] == NatToString(now);
    r
  }

  /**
   * `authSignIn` with `Date.now()` as `now`: the first user with the email
   * decides; an unknown email fails whatever the password, a wrong password
   * fails next, and otherwise the user comes back without the password and
   * with a token naming the user's id.
   */
  function AuthSignIn(users: seq<MockUser>, email: string, password: string, now: nat): (r: Result<AuthResponse>)
    ensures (forall i :: 0 <= i < |users| ==> users[i].email != email) <==> r == Failure(EmailNotFound)
    ensures r.Success? ==> exists i :: 0 <= i < |users| && users[i].email == email && users[i].password == password &&
                                       (forall j :: 0 <= j < i ==> users[j].email != email) &&
                                       r.value == AuthResponse(PublicUser(users[i]), Token(users[i].id, now))
    ensures r.Failure? ==> r.error == EmailNotFound || r.error == InvalidPassword
  {
    match Find(users, (u: MockUser) => u.email == email)
    case None => Failure(EmailNotFound)
    case Some(u) =>
      if u.password != password then Failure(InvalidPassword)
      else Success(AuthResponse(PublicUser(u), Token(u.id, now)))
  }

  /** With a known email, the password of the first user with it decides between the two outcomes. */
  lemma SignInPassword(users: seq<MockUser>, email: string, password: string, now: nat, i: nat)
    requires i < |users| && users[i].email == email && forall j :: 0 <= j < i ==> users[j].email != email
    ensures users[i].password == password <==> AuthSignIn(users, email, password, now).Success?
    ensures users[i].password != password <==> AuthSignIn(users, email, password, now) == Failure(InvalidPassword)
  {
    var found := Find(users, (u: MockUser) => u.email == email);
    var k :| 0 <= k < |users| && users[k] == found.value && users[k].email == email && forall j :: 0 <= j < k ==> users[j].email != email;
    assert k == i;
  }

  /**
   * `authSignUp` with the two `Date.now()` readings and today's date as
   * parameters: a taken email fails; otherwise the new user's display name
   * is the name and the bio is empty. The user list is a value and stays
   * as it was.
   */
  function AuthSignUp(users: seq<MockUser>, name: string, email: string, password: string, idTime: nat, tokenTime: nat, today: string)
    : (r: Result<AuthResponse>)
    ensures (exists i :: 0 <= i < |users| && users[i].email == email) <==> r == Failure(EmailExists)
    ensures r.Success? ==> r.value.user == User("user_" + NatToString(idTime), name, email, name, "", today)
    ensures r.Success? ==> r.value.token == Token(r.value.user.id, tokenTime)
  {
    match Find(users, (u: MockUser) => u.email == email)
    case Some(_) => Failure(EmailExists)
    case None =>
      var id := "user_" + NatToString(idTime);
      Success(AuthResponse(User(id, name, email, name, "", today), Token(id, tokenTime)))
  }

  /** The mock does not store new accounts: an email that can sign up cannot sign in. */
  lemma SignUpDoesNotPersist(
    users: seq<MockUser>, name: string, email: string, password: string, idTime: nat, tokenTime: nat, today: string, now: nat)
    requires AuthSignUp(users, name, email, password, idTime, tokenTime, today).Success?
    ensures AuthSignIn(users, email, password, now) == Failure(EmailNotFound)
  {
  }

  /** `authGetMe`: an empty token fails; any other token gets the first mock user. */
  function AuthGetMe(users: seq<MockUser>, token: string): (r: Result<User>)
    ensures token == "" ==> r == Failure(NoToken)
    ensures token != "" && users == [] ==> r == Failure(NoMockUser)
    ensures token != "" && users != [] ==> r == Success(PublicUser(users[0]))
  {
    if token == "" then Failure(NoToken)
    else if users == [] then Failure(NoMockUser)
    else Success(PublicUser(users[0]))
  }

  /** `authUpdateProfile`: the first mock user with the new display name and bio; the token is not looked at. */
  function AuthUpdateProfile(users: seq<MockUser>, token: string, displayName: string, bio: string): (r: Result<User>)
    ensures users == [] <==> r == Failure(NoMockUser)
    ensures r.Success? ==> r.value.displayName == displayName && r.value.bio == bio
    ensures r.Success? ==> r.value.id == users[0].id && r.value.name == users[0].name &&
                           r.value.email == users[0].email && r.value.joinedDate == users[0].joinedDate
  {
    if users == [] then Failure(NoMockUser)
    else
      var u := users[0];
      Success(User(u.id, u.name, u.email, displayName, bio, u.joinedDate))
  }

  /** Updating the profile replaces exactly the display name and the bio of the user `authGetMe` returns. */
  lemma UpdateProfileMatchesGetMe(users: seq<MockUser>, token: string, displayName: string, bio: string)
    requires token != ""
    ensures AuthGetMe(users, token).Success? <==> AuthUpdateProfile(users, token, displayName, bio).Success?
    ensures AuthGetMe(users, token).Success? ==>
      AuthUpdateProfile(users, token, displayName, bio).value ==
      AuthGetMe(users, token).value.(displayName := displayName, bio := bio)
  {
  }
}
