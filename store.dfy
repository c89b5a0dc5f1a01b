/** The post table as the webhook sees it: `wp_insert_post`, `wp_update_post`,
    `wp_delete_post` and `get_post_status` over a map with an auto-increment
    counter, the kses filters that sanitise a write while they are installed,
    and `safely_upsert_story`, which switches them off around one write. */
module Store {
  import opened Types

  /** Ids are positive and below the auto-increment counter. */
  predicate Valid(s: State) {
    0 < s.nextId && forall id :: id in s.posts ==> 0 < id < s.nextId
  }

  /** `get_post_status($id)` is truthy: the post exists. A missing id is false. */
  predicate Exists(s: State, id: Option<Id>)
    ensures id.None? ==> !Exists(s, id)
    ensures Valid(s) && Exists(s, id) ==> 0 < id.value < s.nextId
  {
    id.Some? && id.value in s.posts
  }

  /** The kses save filters on title, content and excerpt, when installed. */
  function Sanitize(env: Env, installed: bool, rec: PostRecord): PostRecord {
    if installed then
      rec.(title := env.kses(rec.title), content := env.kses(rec.content), excerpt := env.kses(rec.excerpt))
    else rec
  }

  /** The post a record creates; the type defaults to 'post'. */
  function NewPost(rec: PostRecord): Post {
    Post(rec.postType.GetOr("post"), rec.title, rec.content, rec.excerpt, rec.status, rec.name, rec.meta)
  }

  /** An existing post updated by a record: given keys replace, absent ones
      (type, slug, other meta keys) are kept. */
  function MergePost(p: Post, rec: PostRecord): Post {
    Post(rec.postType.GetOr(p.postType), rec.title, rec.content, rec.excerpt, rec.status,
         if rec.name.Some? then rec.name else p.name, p.meta + rec.meta)
  }

  /** Writing the same record twice leaves the post the first write left. */
  lemma MergeIsIdempotent(p: Post, rec: PostRecord)
    ensures MergePost(MergePost(p, rec), rec) == MergePost(p, rec)
  {
    assert (p.meta + rec.meta) + rec.meta == p.meta + rec.meta;
  }

  /** `wp_insert_post`: the next auto-increment id gets the (sanitised) record. */
  function InsertPost(s: State, env: Env, rec: PostRecord): (r: (State, Id))
    ensures r.1 == s.nextId && r.0.nextId == s.nextId + 1
    ensures r.0.posts == s.posts[r.1 := NewPost(Sanitize(env, s.kses, rec))]
    ensures r.0.options == s.options && r.0.kses == s.kses && r.0.log == s.log
    ensures Valid(s) ==> 0 < r.1 && r.1 !in s.posts && Valid(r.0)
  {
    var id := s.nextId;
    (s.(posts := s.posts[id := NewPost(Sanitize(env, s.kses, rec))], nextId := id + 1), id)
  }

  /** `wp_update_post`: 0 and no change for a missing id. */
  function UpdatePost(s: State, env: Env, rec: PostRecord): (r: (State, Id))
    requires rec.id.Some?
    ensures rec.id.value in s.posts ==>
      (r.1 == rec.id.value && r.0.posts == s.posts[r.1 := MergePost(s.posts[r.1], Sanitize(env, s.kses, rec))])
    ensures rec.id.value !in s.posts ==> r.1 == 0 && r.0.posts == s.posts
    ensures r.0.posts.Keys == s.posts.Keys
    ensures r.0.nextId == s.nextId && r.0.options == s.options && r.0.kses == s.kses && r.0.log == s.log
    ensures Valid(s) ==> Valid(r.0)
  {
    var id := rec.id.value;
    if id in s.posts then
      (s.(posts := s.posts[id := MergePost(s.posts[id], Sanitize(env, s.kses, rec))]), id)
    else (s, 0)
  }

  /** `wp_delete_post`: removes the post if there is one; a null id does nothing. */
  function DeletePost(s: State, id: Option<Id>): (r: State)
    ensures r.nextId == s.nextId && r.options == s.options && r.kses == s.kses && r.log == s.log
    ensures id.Some? ==> r.posts.Keys == s.posts.Keys - {id.value}
    ensures forall k :: k in r.posts ==> k in s.posts && r.posts[k] == s.posts[k]
    ensures id.None? ==> r.posts == s.posts
    ensures Valid(s) ==> Valid(r)
  {
    if id.Some? then s.(posts := s.posts - {id.value}) else s
  }

  /** `safely_upsert_story`: with the kses filters removed, update when the
      record has an `ID` and insert otherwise, then install the filters again.
      The stored post is the record itself, never its sanitised form. */
  function Upsert(s: State, env: Env, rec: PostRecord): (r: (State, Id))
    ensures r.0.kses
    ensures r.0.log == s.log && r.0.options == s.options
    ensures rec.id.None? ==>
      r.1 == s.nextId && r.0.nextId == s.nextId + 1 && r.0.posts == s.posts[r.1 := NewPost(rec)]
    ensures rec.id.None? && Valid(s) ==> 0 < r.1 && r.1 !in s.posts
    ensures Exists(s, rec.id) ==>
      r.1 == rec.id.value && r.0.nextId == s.nextId
      && r.0.posts == s.posts[r.1 := MergePost(s.posts[r.1], rec)]
    ensures rec.id.Some? && !Exists(s, rec.id) ==>
      r.1 == 0 && r.0.posts == s.posts && r.0.nextId == s.nextId
    ensures s.posts.Keys <= r.0.posts.Keys && s.nextId <= r.0.nextId
    ensures Valid(s) ==> Valid(r.0)
  {
    var unfiltered := s.(kses := false);
    var (written, id) := if rec.id.Some? then UpdatePost(unfiltered, env, rec)
                         else InsertPost(unfiltered, env, rec);
    (written.(kses := true), id)
  }
}
