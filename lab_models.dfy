/** The two tables of the labs application (core/apps/labs/models.py): topics
    with unique names, and lab tasks that each belong to one topic. */
module LabModels {
  import opened Wrappers

  datatype Topic = Topic(name: string, description: string)

  /** A lab task row. `file` and `solutionFile` hold the stored file name;
      `None` is a NULL column. `createdAt` is the creation timestamp, set once. */
  datatype LabTask = LabTask(
    title: string,
    description: string,
    topicId: int,
    file: Option<string>,
    solutionFile: Option<string>,
    createdAt: int)

  /** A Django file field is truthy exactly when it holds a non-empty name. */
  predicate HasFile(f: Option<string>)
  {
    f.Some? && f.value != ""
  }

  /** `Topic.__str__`. */
  function TopicStr(t: Topic): string
  {
    t.name
  }

  /** `LabTask.__str__`. */
  function TaskStr(t: LabTask): string
  {
    t.title
  }

  /** Some topic already carries `name`. */
  predicate NameTaken(topics: map<int, Topic>, name: string)
  {
    exists id :: id in topics && topics[id].name == name
  }

  /** `unique=True` on `Topic.name`. */
  ghost predicate UniqueNames(topics: map<int, Topic>)
  {
    forall i, j :: i in topics && j in topics && i != j ==> topics[i].name != topics[j].name
  }

  /** With unique names, the string form of a topic tells it apart from
      every other topic of the table. */
  lemma TopicStrIdentifiesTopic(topics: map<int, Topic>, i: int, j: int)
    requires UniqueNames(topics)
    requires i in topics && j in topics
    ensures TopicStr(topics[i]) == TopicStr(topics[j]) <==> i == j
  {
  }

  /** The foreign key from a task to its topic. */
  ghost predicate TopicsExist(topics: map<int, Topic>, tasks: map<int, LabTask>)
  {
    forall id :: id in tasks ==> tasks[id].topicId in topics
  }

  /** The tasks that survive deleting topic `topicId` under `on_delete=CASCADE`. */
  function CascadeDelete(tasks: map<int, LabTask>, topicId: int): (r: map<int, LabTask>)
    ensures forall id :: id in r <==> id in tasks && tasks[id].topicId != topicId
    ensures forall id :: id in r ==> r[id] == tasks[id]
  {
    map id | id in tasks && tasks[id].topicId != topicId :: tasks[id]
  }

  /** Deleting a topic together with its tasks keeps every remaining task's
      topic in the table. */
  lemma CascadeKeepsTopicsExist(topics: map<int, Topic>, tasks: map<int, LabTask>, topicId: int)
    requires TopicsExist(topics, tasks)
    ensures TopicsExist(topics - {topicId}, CascadeDelete(tasks, topicId))
  {
  }

  /** The database of the labs application. The ids of both tables come from
      counters, as the ORM's auto-increment keys do, and are never reused. */
  class LabDatabase {
    var topics: map<int, Topic>
    var tasks: map<int, LabTask>
    var nextTopicId: int
    var nextTaskId: int

    ghost predicate Valid()
      reads this
    {
      && 1 <= nextTopicId && 1 <= nextTaskId
      && UniqueNames(topics)
      && TopicsExist(topics, tasks)
      && (forall id :: id in topics ==> 1 <= id < nextTopicId)
      && (forall id :: id in tasks ==> 1 <= id < nextTaskId)
    }

    constructor ()
      ensures Valid()
      ensures topics == map[] && tasks == map[]
    {
      topics, tasks := map[], map[];
      nextTopicId, nextTaskId := 1, 1;
    }

    /** `Topic.objects.create(name=..., description=...)`; the description
        defaults to the empty string, and a taken name is refused as the
        unique constraint refuses it. */
    method AddTopic(name: string, description: string := "") returns (r: Option<int>)
      requires Valid()
      modifies this
      ensures Valid()
      ensures r.None? <==> NameTaken(old(topics), name)
      ensures r.None? ==> topics == old(topics) && nextTopicId == old(nextTopicId)
      ensures r.Some? ==> r.value !in old(topics) && r.value == old(nextTopicId)
                          && topics == old(topics)[r.value := Topic(name, description)]
                          && nextTopicId == old(nextTopicId) + 1
      ensures tasks == old(tasks) && nextTaskId == old(nextTaskId)
    {
      if NameTaken(topics, name) {
        return None;
      }
      var id := nextTopicId;
      topics := topics[id := Topic(name, description)];
      nextTopicId := nextTopicId + 1;
      r := Some(id);
    }

    /** `topic.delete()`: removes the topic and, by the cascade, every task of
        that topic; an absent id deletes nothing. */
    method DeleteTopic(id: int)
      requires Valid()
      modifies this
      ensures Valid()
      ensures topics == old(topics) - {id}
      ensures tasks == CascadeDelete(old(tasks), id)
      ensures nextTopicId == old(nextTopicId) && nextTaskId == old(nextTaskId)
    {
      CascadeKeepsTopicsExist(topics, tasks, id);
      topics := topics - {id};
      tasks := CascadeDelete(tasks, id);
    }
  }
}
