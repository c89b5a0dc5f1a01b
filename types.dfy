/** Values handled by the StoryChief webhook: the decoded payload and the story
    it carries, WordPress post records and stored posts, the lifecycle actions
    fired through `do_action`, the replies, and the collaborators the webhook
    calls but does not define. */
module Types {

  datatype Option<+T> = None | Some(value: T) {
    function GetOr(default: T): T {
      match this
      case Some(v) => v
      case None => default
    }
  }

  /** A WordPress post id. 0 is the value `wp_update_post` returns on failure. */
  type Id = int

  /** PHP truthiness of a string: only "" and "0" are falsy. */
  predicate FalsyString(s: string) {
    s == "" || s == "0"
  }

  /** `isset($x) && !empty($x)` for an optional string field. */
  predicate NonEmpty(x: Option<string>) {
    x.Some? && !FalsyString(x.value)
  }

  /** A site option value as written by `update_sc_option`. */
  datatype Setting = Text(text: string) | Items(items: seq<string>)

  /** The story in `data`. Absent fields of the JSON object are `None`;
      `extra` holds the fields only hook subscribers read (author, tags, ...). */
  datatype Story = Story(
    title: string,
    content: string,
    excerpt: Option<string>,
    seoSlug: Option<string>,
    amphtml: Option<string>,
    externalId: Option<Id>,
    extra: map<string, string>)

  /** `meta`: the event name, the optional Facebook page ids and the MAC. */
  datatype Meta = Meta(event: Option<string>, fbPageIds: Option<Setting>, mac: Option<string>)

  /** The request body after `json_decode`. */
  datatype Payload = Payload(meta: Meta, data: Story)

  /** The `$post` array handed to `wp_insert_post` / `wp_update_post`.
      `id` is the `ID` key, `name` the `post_name` key, `meta` is `meta_input`. */
  datatype PostRecord = PostRecord(
    id: Option<Id>,
    postType: Option<string>,
    title: string,
    content: string,
    excerpt: string,
    status: string,
    name: Option<string>,
    meta: map<string, string>)

  /** A row of the post table (with its meta). `name` is `None` while the store's
      own slugging applies. */
  datatype Post = Post(
    postType: string,
    title: string,
    content: string,
    excerpt: string,
    status: string,
    name: Option<string>,
    meta: map<string, string>)

  /** One `do_action` call (or `clean_post_cache`, which fires an action too). */
  datatype Action =
    | BeforePublish(story: Story)
    | SaveAuthor(story: Story)
    | SaveTags(story: Story)
    | SaveCategories(story: Story)
    | SaveFeaturedImage(story: Story)
    | SaveSeo(story: Story)
    | SideloadImages(id: Id)
    | AfterPublish(story: Story)
    | CleanPostCache(id: Id)
    | AfterDelete(story: Story)
    | AfterTest(story: Story)

  /** A successful handler's array: `{id, permalink}` or the empty array. */
  datatype Body = IdLink(id: Option<Id>, permalink: Option<string>) | EmptyBody

  /** A `WP_Error` with its HTTP status. */
  datatype WpError = WpError(code: string, message: string, status: int)

  const InvalidMacError := WpError("invalid_mac", "The Mac is invalid", 400)
  const NoEventTypeError := WpError("no_event_type", "The event is not set", 400)
  const PostNotFoundError := WpError("post_not_found", "The post could not be found", 404)

  /** What a handler returns: an error, or a value that may be null. */
  datatype Outcome = Failed(error: WpError) | Value(response: Option<Body>)

  /** What `handle` returns: an error, or a (possibly null) body with the MAC
      `appendMac` added to it. */
  datatype Reply = Failure(error: WpError) | Response(body: Option<Body>, mac: Option<string>)

  /** Option names used by the webhook. */
  const TestModeKey := "test_mode"
  const PostTypeKey := "post_type"
  const FbPagesKey := "meta_fb_pages"

  /** Collaborators the webhook calls but does not define: the MAC check and
      signature, the two filters `handle` applies, the draft-status and
      post-type filters, permalink lookup and the kses sanitiser. */
  datatype Env = Env(
    validMac: Payload -> bool,
    sign: Body -> string,
    beforeHandle: Payload -> Payload,
    alterResponse: Option<Body> -> Option<Body>,
    isDraft: (bool, Story) -> bool,
    changePostType: (string, Story) -> string,
    permalink: (map<Id, Post>, Id) -> string,
    kses: string -> string)

  /** Everything a request can change: the post table with its auto-increment
      counter, the plugin's options, the global kses toggle and the actions fired. */
  datatype State = State(
    posts: map<Id, Post>,
    nextId: Id,
    options: map<string, Setting>,
    kses: bool,
    log: seq<Action>)
}
