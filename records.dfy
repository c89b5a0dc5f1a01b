/** The `$post` arrays `handlePublish` and `handleUpdate` build from a story. */
module Records {
  import opened Types

  /** The fields both handlers set the same way: title, content, excerpt
      (falling back to ''), status ('draft' or 'publish'), the slug when
      `seo_slug` is set and non-empty, and `_amphtml` meta when `amphtml` is set. */
  function StoryRecord(story: Story, isDraft: bool): (rec: PostRecord)
    ensures rec.id.None? && rec.postType.None?
    ensures rec.title == story.title && rec.content == story.content
    ensures rec.status == "draft" <==> isDraft
    ensures rec.status == "publish" <==> !isDraft
    ensures NonEmpty(story.excerpt) ==> rec.excerpt == story.excerpt.value
    ensures !NonEmpty(story.excerpt) ==> rec.excerpt == ""
    ensures rec.name.Some? <==> NonEmpty(story.seoSlug)
    ensures rec.name.Some? ==> rec.name == story.seoSlug
    ensures "_amphtml" in rec.meta <==> story.amphtml.Some?
    ensures rec.meta.Keys <= {"_amphtml"}
    ensures "_amphtml" in rec.meta ==> rec.meta["_amphtml"] == story.amphtml.value
  {
    PostRecord(
      id := None,
      postType := None,
      title := story.title,
      content := story.content,
      excerpt := if NonEmpty(story.excerpt) then story.excerpt.value else "",
      status := if isDraft then "draft" else "publish",
      name := if NonEmpty(story.seoSlug) then story.seoSlug else None,
      meta := if story.amphtml.Some? then map["_amphtml" := story.amphtml.value] else map[])
  }

  /** `handlePublish`'s record: the story fields plus `post_type`, and no `ID`,
      so the upsert inserts. */
  function PublishRecord(story: Story, isDraft: bool, postType: string): (rec: PostRecord)
    ensures rec.id.None? && rec.postType == Some(postType)
    ensures rec.(postType := None) == StoryRecord(story, isDraft)
  {
    StoryRecord(story, isDraft).(postType := Some(postType))
  }

  /** `handleUpdate`'s record: the story fields plus `ID` = the external id, and
      no `post_type`, so the upsert updates and the post keeps its type. */
  function UpdateRecord(story: Story, isDraft: bool, id: Id): (rec: PostRecord)
    ensures rec.id == Some(id) && rec.postType.None?
    ensures rec.(id := None) == StoryRecord(story, isDraft)
  {
    StoryRecord(story, isDraft).(id := Some(id))
  }
}
