/**
 * The `spectrocloud_project` resource: the mapping from the resource's
 * attributes to the project entity sent to the API, and the create and read
 * operations around it.
 */
module ProjectResource {
  import opened Wrappers
  import opened Diagnostics

  const DescriptionKey: string := "description"

  datatype ObjectMeta = ObjectMeta(
    name: string,
    uid: string,
    labels: map<string, string>,
    annotations: map<string, string>)

  /** The body of a create or update request. */
  datatype ProjectEntity = ProjectEntity(metadata: ObjectMeta)

  /** A project as the API lists it; only its metadata is read. */
  datatype Project = Project(metadata: ObjectMeta)

  /** The annotations of the entity: the description, under its key, only when it is non-empty. */
  function Annotations(description: string): (annotations: map<string, string>)
    ensures DescriptionKey in annotations <==> description != ""
    ensures annotations.Keys <= {DescriptionKey}
    ensures DescriptionKey in annotations ==> annotations[DescriptionKey] == description
  {
    if |description| > 0 then map[DescriptionKey := description] else map[]
  }

  /** The description after a read: the annotation when the project has one, else the current value. */
  function ReadDescription(annotations: map<string, string>, current: string): string
  {
    if DescriptionKey in annotations then annotations[DescriptionKey] else current
  }

  /**
   * A description written by toProject comes back from a read: a non-empty
   * one as the annotation, an empty one by leaving the attribute alone.
   */
  lemma DescriptionRoundTrip(description: string, current: string)
    ensures ReadDescription(Annotations(description), current)
            == if description != "" then description else current
    ensures ReadDescription(Annotations(description), description) == description
  {
  }

  /** The resource's state; `tags` is the "tags" set in list order. */
  class ProjectData {
    var id: string
    var name: string
    var description: string
    var tags: seq<string>

    constructor (name: string, description: string, tags: seq<string>)
      ensures id == "" && this.name == name && this.description == description && this.tags == tags
    {
      id := "";
      this.name, this.description, this.tags := name, description, tags;
    }

    /** toProject: the entity for the current attributes; `toTags` turns the tag strings into labels. */
    function ToProject(toTags: seq<string> -> map<string, string>): (e: ProjectEntity)
      reads this
      ensures e.metadata.name == name && e.metadata.uid == id
      ensures e.metadata.labels == toTags(tags)
      ensures e.metadata.annotations == Annotations(description)
    {
      ProjectEntity(ObjectMeta(name, id, toTags(tags), Annotations(description)))
    }

    /** resourceProjectCreate: the id becomes the returned UID, and only when the create succeeds. */
    method Create(createProject: ProjectEntity -> Result<string, string>,
                  toTags: seq<string> -> map<string, string>) returns (diags: seq<Diagnostic>)
      modifies this
      ensures createProject(old(ToProject(toTags))).Failure? ==>
                diags == FromErr(createProject(old(ToProject(toTags))).error) && unchanged(this)
      ensures createProject(old(ToProject(toTags))).Success? ==>
                diags == [] && id == createProject(old(ToProject(toTags))).value
                && name == old(name) && description == old(description) && tags == old(tags)
    {
      var response := createProject(ToProject(toTags));
      if response.Failure? {
        return FromErr(response.error);
      }
      id := response.value;
      diags := [];
    }

    /**
     * resourceProjectRead: a failing lookup yields its error; a project that
     * is gone clears the id and yields nothing; otherwise the name and tags
     * are read back, and the description only when the project carries one.
     */
    method Read(getProject: string -> Result<Option<Project>, string>,
                flattenTags: map<string, string> -> seq<string>) returns (diags: seq<Diagnostic>)
      modifies this
      ensures getProject(old(id)).Failure? ==>
                diags == FromErr(getProject(old(id)).error) && unchanged(this)
      ensures getProject(old(id)) == Success(None) ==>
                diags == [] && id == ""
                && name == old(name) && description == old(description) && tags == old(tags)
      ensures getProject(old(id)).Success? && getProject(old(id)).value.Some? ==>
                var meta := getProject(old(id)).value.value.metadata;
                diags == [] && id == old(id) && name == meta.name
                && description == ReadDescription(meta.annotations, old(description))
                && tags == flattenTags(meta.labels)
    {
      var response := getProject(id);
      if response.Failure? {
        return FromErr(response.error);
      }
      if response.value.None? {
        id := "";
        return [];
      }
      var project := response.value.value;
      name := project.metadata.name;
      if DescriptionKey in project.metadata.annotations {
        description := project.metadata.annotations[DescriptionKey];
      }
      tags := flattenTags(project.metadata.labels);
      diags := [];
    }
  }
}
