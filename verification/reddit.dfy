/** The decision logic of the Reddit client: turning the decoded token
    response into a bearer token, and choosing one post from the decoded
    "hot" listing of r/wholesomememes. The HTTP requests and the JSON decoding
    around them are inputs here: each call's outcome arrives as a `Result`,
    `Err` when sending the request or decoding its body failed. */
module Reddit {
  import opened Wrappers

  /** The `limit` query parameter of the listing request: two posts are asked for. */
  const ListingLimit: nat := 2

  /** A post's fields as decoded from a listing child; `url` may be null. */
  datatype ChildData = ChildData(title: string, permalink: string, url: Option<string>)

  /** The post handed to the caller is the child's data itself. */
  type Post = ChildData

  datatype Child = Child(data: ChildData)

  datatype ListingData = ListingData(children: seq<Child>)

  datatype Listing = Listing(data: ListingData)

  datatype AccessTokenResponse = AccessTokenResponse(access_token: string)

  /** The errors the two calls return: a failed request or body decoding
      (carrying the library's message), or a listing without children. */
  datatype FetchError = RequestFailed(message: string) | NoPosts

  /** The text an error displays as. */
  function Display(e: FetchError): (text: string)
    ensures e == NoPosts ==> text == "no posts"
    ensures e.RequestFailed? ==> text == e.message
  {
    match e
    case NoPosts => "no posts"
    case RequestFailed(message) => message
  }

  /** `reddit_access_token`: the token is the decoded response's field, and a
      failed request or decoding is passed on unchanged. */
  function AccessToken(response: Result<AccessTokenResponse, FetchError>): (r: Result<string, FetchError>)
    ensures response.Ok? ==> r == Ok(response.value.access_token)
    ensures response.Err? ==> r == Err(response.error)
  {
    match response
    case Err(e) => Err(e)
    case Ok(body) => Ok(body.access_token)
  }

  /** Rust's `slice::last`. */
  function Last<T>(s: seq<T>): Option<T> {
    if s == [] then None else Some(s[|s| - 1])
  }

  /** The selection at the end of `hot_wholesome_meme`: the data of the last
      child, or `NoPosts` when there is none. */
  function SelectPost(children: seq<Child>): (r: Result<Post, FetchError>)
    ensures r.Err? <==> children == []
    ensures r.Err? ==> r.error == NoPosts
    ensures r.Ok? ==> Child(r.value) in children
    ensures r.Ok? ==> r.value == children[|children| - 1].data
  {
    match Last(children)
    case Some(child) => Ok(child.data)
    case None => Err(NoPosts)
  }

  /** `hot_wholesome_meme`, given the outcome of the listing request. */
  function HotWholesomeMeme(response: Result<Listing, FetchError>): (r: Result<Post, FetchError>)
    ensures response.Err? ==> r == Err(response.error)
    ensures response.Ok? ==> (r == Err(NoPosts) <==> response.value.data.children == [])
    ensures r.Ok? ==> response.Ok? && Child(r.value) in response.value.data.children
    ensures response.Ok? && response.value.data.children != [] ==>
              var children := response.value.data.children;
              r == Ok(children[|children| - 1].data)
  {
    match response
    case Err(e) => Err(e)
    case Ok(listing) => SelectPost(listing.data.children)
  }

  /** Whatever precedes it, the last child is the one selected. */
  lemma SelectLast(prefix: seq<Child>, last: Child)
    ensures SelectPost(prefix + [last]) == Ok(last.data)
  {
  }

  /** Only the final child matters: children before it never influence the choice. */
  lemma SelectIgnoresPrefix(prefix: seq<Child>, rest: seq<Child>)
    requires rest != []
    ensures SelectPost(prefix + rest) == SelectPost(rest)
  {
  }

  /** A one-post listing yields that post. */
  lemma SelectSingle(only: Child)
    ensures SelectPost([only]) == Ok(only.data)
  {
  }

  /** A listing of the requested size yields the second hottest post, never
      the hottest one unless the two are identical. */
  lemma SecondHottest(listing: Listing)
    requires |listing.data.children| == ListingLimit
    ensures HotWholesomeMeme(Ok(listing)) == Ok(listing.data.children[1].data)
    ensures listing.data.children[0] != listing.data.children[1] ==>
              HotWholesomeMeme(Ok(listing)) != Ok(listing.data.children[0].data)
  {
  }

  /** The selected post is an unchanged copy of the child: same title, same
      permalink, and a null url stays null. */
  lemma SelectCopiesFields(children: seq<Child>)
    requires children != []
    ensures SelectPost(children).Ok?
    ensures SelectPost(children).value.title == children[|children| - 1].data.title
    ensures SelectPost(children).value.permalink == children[|children| - 1].data.permalink
    ensures SelectPost(children).value.url.None? <==> children[|children| - 1].data.url.None?
    ensures SelectPost(children).value.url == children[|children| - 1].data.url
  {
  }
}
