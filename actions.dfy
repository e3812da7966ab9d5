/** The pending user actions that the bridge hands to the web page once the page is ready. */
module Actions {

  /** Kind of a task to create: a plain URL (NORMAL), or anything else, which names a torrent file. */
  datatype TaskKind = Normal | Torrent

  datatype CreateTask = CreateTask(url: string, kind: TaskKind)

  /** An action in the pending queue. Only a create-tasks action is dispatched;
      an action of any other class is dequeued and dropped. */
  datatype Action = CreateTasksAction(tasks: seq<CreateTask>) | OtherAction

  /** A queued create-tasks action carries at least one task: dispatch reads the first one. */
  type QueuedAction = a: Action | a.CreateTasksAction? ==> |a.tasks| > 0 witness OtherAction

  /** The URLs of the tasks, in task order. */
  function TaskUrls(tasks: seq<CreateTask>): (urls: seq<string>)
    ensures |urls| == |tasks|
    ensures forall i :: 0 <= i < |tasks| ==> urls[i] == tasks[i].url
  {
    if tasks == [] then [] else [tasks[0].url] + TaskUrls(tasks[1..])
  }
}
