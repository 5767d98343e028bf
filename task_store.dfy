/** src/stores/taskStore.ts: tasks with their comments and attachments.

    Unlike the wallet store, every action works on the in-memory arrays and
    writes the changed array through to storage, so memory and storage agree
    after each action that starts from agreement. */
module TaskStore {
  import opened Optional
  import opened Arrays
  import opened Storage

  const TasksKey := "atmos_tasks"
  const CommentsKey := "atmos_task_comments"
  const AttachmentsKey := "atmos_task_attachments"

  datatype TaskStatus = Pending | InProgress | Review | Completed
  datatype TaskPriority = Low | Medium | High | Urgent

  /** A task; the timestamps are clock readings. */
  datatype Task = Task(
    id: string,
    groupId: string,
    subGroupId: Option<string>,
    title: string,
    description: Option<string>,
    assigneeId: Option<string>,
    createdBy: Option<string>,
    status: TaskStatus,
    priority: TaskPriority,
    deadline: Option<string>,
    completedAt: Option<int>,
    proofUrl: Option<string>,
    createdAt: int,
    updatedAt: int)

  /** `Omit<Task, 'id' | 'created_at' | 'updated_at'>`, as addTask takes it. */
  datatype TaskDraft = TaskDraft(
    groupId: string,
    subGroupId: Option<string>,
    title: string,
    description: Option<string>,
    assigneeId: Option<string>,
    createdBy: Option<string>,
    status: TaskStatus,
    priority: TaskPriority,
    deadline: Option<string>,
    completedAt: Option<int>,
    proofUrl: Option<string>)

  /** `Partial<Task>`, as updateTask takes it: one Patch per key. */
  datatype TaskPatch = TaskPatch(
    id: Patch<string>,
    groupId: Patch<string>,
    subGroupId: Patch<Option<string>>,
    title: Patch<string>,
    description: Patch<Option<string>>,
    assigneeId: Patch<Option<string>>,
    createdBy: Patch<Option<string>>,
    status: Patch<TaskStatus>,
    priority: Patch<TaskPriority>,
    deadline: Patch<Option<string>>,
    completedAt: Patch<Option<int>>,
    proofUrl: Patch<Option<string>>,
    createdAt: Patch<int>,
    updatedAt: Patch<int>)

  datatype TaskComment = TaskComment(id: string, taskId: string, userId: string, comment: string, createdAt: int)

  datatype TaskAttachment = TaskAttachment(
    id: string,
    taskId: string,
    fileUrl: string,
    fileName: string,
    fileSize: int,
    uploadedBy: string,
    uploadedAt: int)

  // ---------------------------------------------------------------------
  // Tasks
  // ---------------------------------------------------------------------

  function NewTask(d: TaskDraft, freshId: string, now: int): Task {
    Task(freshId, d.groupId, d.subGroupId, d.title, d.description, d.assigneeId, d.createdBy,
         d.status, d.priority, d.deadline, d.completedAt, d.proofUrl, now, now)
  }

  /** One task after `{ ...t, ...updates, updated_at, completed_at }`: the
      supplied keys replace the old values, `updated_at` is the clock, and
      `completed_at` is stamped exactly when the update moves the task into
      completed from another status; otherwise it is the task's old value
      (a `completed_at` key in the update is always overridden). */
  function UpdatedTask(t: Task, p: TaskPatch, now: int): (r: Task)
    ensures r.updatedAt == now
    ensures r.status == Apply(p.status, t.status)
    ensures (t.status != Completed && r.status == Completed) ==> r.completedAt == Some(now)
    ensures (t.status == Completed || r.status != Completed) ==> r.completedAt == t.completedAt
    ensures r.createdAt == Apply(p.createdAt, t.createdAt) && r.id == Apply(p.id, t.id)
  {
    Task(Apply(p.id, t.id), Apply(p.groupId, t.groupId), Apply(p.subGroupId, t.subGroupId),
         Apply(p.title, t.title), Apply(p.description, t.description),
         Apply(p.assigneeId, t.assigneeId), Apply(p.createdBy, t.createdBy),
         Apply(p.status, t.status), Apply(p.priority, t.priority), Apply(p.deadline, t.deadline),
         if p.status == Put(Completed) && t.status != Completed then Some(now) else t.completedAt,
         Apply(p.proofUrl, t.proofUrl), Apply(p.createdAt, t.createdAt), now)
  }

  /** An update with no keys only refreshes `updated_at`. */
  lemma EmptyUpdateTouchesOnly(t: Task, now: int)
    ensures UpdatedTask(t, TaskPatch(Keep, Keep, Keep, Keep, Keep, Keep, Keep, Keep, Keep, Keep, Keep, Keep, Keep, Keep), now)
            == t.(updatedAt := now)
  {
  }

  /** The `completed_at` and `updated_at` keys of an update make no difference. */
  lemma UpdateIgnoresTimestampKeys(t: Task, p: TaskPatch, c: Patch<Option<int>>, u: Patch<int>, now: int)
    ensures UpdatedTask(t, p.(completedAt := c, updatedAt := u), now) == UpdatedTask(t, p, now)
  {
  }

  function TaskIs(id: string): Task -> bool {
    (t: Task) => t.id == id
  }

  function TaskIsNot(id: string): Task -> bool {
    (t: Task) => t.id != id
  }

  /** updateTask's map: the tasks with that id are updated, all others kept. */
  function TasksUpdated(tasks: seq<Task>, id: string, p: TaskPatch, now: int): (r: seq<Task>)
    ensures |r| == |tasks|
    ensures forall i :: 0 <= i < |tasks| && tasks[i].id != id ==> r[i] == tasks[i]
    ensures forall i :: 0 <= i < |tasks| && tasks[i].id == id ==> r[i] == UpdatedTask(tasks[i], p, now)
  {
    MapIf(tasks, TaskIs(id), (t: Task) => UpdatedTask(t, p, now))
  }

  lemma UpdatedTaskIdempotent(t: Task, p: TaskPatch, now: int)
    ensures UpdatedTask(UpdatedTask(t, p, now), p, now) == UpdatedTask(t, p, now)
  {
  }

  /** Repeating an update at the same clock reading changes nothing more, even
      when the update gives the task a new id. */
  lemma TasksUpdatedIdempotent(tasks: seq<Task>, id: string, p: TaskPatch, now: int)
    ensures TasksUpdated(TasksUpdated(tasks, id, p, now), id, p, now) == TasksUpdated(tasks, id, p, now)
  {
    var once := TasksUpdated(tasks, id, p, now);
    var twice := TasksUpdated(once, id, p, now);
    forall i | 0 <= i < |tasks| ensures twice[i] == once[i] {
      if tasks[i].id == id {
        UpdatedTaskIdempotent(tasks[i], p, now);
      }
    }
  }

  /** An update of an id no task has changes nothing. */
  lemma UpdateUnknownTask(tasks: seq<Task>, id: string, p: TaskPatch, now: int)
    requires forall t :: t in tasks ==> t.id != id
    ensures TasksUpdated(tasks, id, p, now) == tasks
  {
    var r := TasksUpdated(tasks, id, p, now);
    assert forall i :: 0 <= i < |tasks| ==> tasks[i] in tasks;
  }

  function TaskInGroup(groupId: string): Task -> bool {
    (t: Task) => t.groupId == groupId
  }

  /** `t.assignee_id === userId`: an unassigned task belongs to nobody. */
  function AssignedTo(userId: string): Task -> bool {
    (t: Task) => t.assigneeId == Some(userId)
  }

  /** getGroupTasks over an added task: the group's earlier tasks, then the
      new one when it is in the group. */
  lemma GroupTasksAfterAdd(tasks: seq<Task>, d: TaskDraft, freshId: string, now: int, groupId: string)
    ensures Filter(tasks + [NewTask(d, freshId, now)], TaskInGroup(groupId))
            == Filter(tasks, TaskInGroup(groupId)) + if d.groupId == groupId then [NewTask(d, freshId, now)] else []
  {
    FilterAppend(tasks, [NewTask(d, freshId, now)], TaskInGroup(groupId));
  }

  // ---------------------------------------------------------------------
  // Comments and attachments
  // ---------------------------------------------------------------------

  function NewComment(taskId: string, userId: string, comment: string, freshId: string, now: int): TaskComment {
    TaskComment(freshId, taskId, userId, comment, now)
  }

  function NewAttachment(taskId: string, fileUrl: string, fileName: string, fileSize: int, uploadedBy: string,
                         freshId: string, now: int): TaskAttachment {
    TaskAttachment(freshId, taskId, fileUrl, fileName, fileSize, uploadedBy, now)
  }

  function CommentIsNot(id: string): TaskComment -> bool {
    (c: TaskComment) => c.id != id
  }

  function CommentOn(taskId: string): TaskComment -> bool {
    (c: TaskComment) => c.taskId == taskId
  }

  function CommentNotOn(taskId: string): TaskComment -> bool {
    (c: TaskComment) => c.taskId != taskId
  }

  function AttachmentIsNot(id: string): TaskAttachment -> bool {
    (a: TaskAttachment) => a.id != id
  }

  function AttachmentOn(taskId: string): TaskAttachment -> bool {
    (a: TaskAttachment) => a.taskId == taskId
  }

  function AttachmentNotOn(taskId: string): TaskAttachment -> bool {
    (a: TaskAttachment) => a.taskId != taskId
  }

  /** The three arrays of the store. */
  datatype Board = Board(tasks: seq<Task>, comments: seq<TaskComment>, attachments: seq<TaskAttachment>)

  /** deleteTask's cascade: the task, and every comment and attachment on
      it, are removed; everything else stays, in order. */
  function TaskDeleted(b: Board, id: string): (r: Board)
    ensures forall t :: t in r.tasks <==> t in b.tasks && t.id != id
    ensures forall c :: c in r.comments <==> c in b.comments && c.taskId != id
    ensures forall a :: a in r.attachments <==> a in b.attachments && a.taskId != id
    ensures IsSubsequence(r.tasks, b.tasks) && IsSubsequence(r.comments, b.comments)
    ensures IsSubsequence(r.attachments, b.attachments)
    ensures forall t :: multiset(r.tasks)[t] == if t.id != id then multiset(b.tasks)[t] else 0
    ensures forall c :: multiset(r.comments)[c] == if c.taskId != id then multiset(b.comments)[c] else 0
    ensures forall a :: multiset(r.attachments)[a] == if a.taskId != id then multiset(b.attachments)[a] else 0
  {
    FilterMultiset(b.tasks, TaskIsNot(id));
    FilterMultiset(b.comments, CommentNotOn(id));
    FilterMultiset(b.attachments, AttachmentNotOn(id));
    FilterIsSubsequence(b.tasks, TaskIsNot(id));
    FilterIsSubsequence(b.comments, CommentNotOn(id));
    FilterIsSubsequence(b.attachments, AttachmentNotOn(id));
    Board(Filter(b.tasks, TaskIsNot(id)), Filter(b.comments, CommentNotOn(id)),
          Filter(b.attachments, AttachmentNotOn(id)))
  }

  /** Deleting a task just added under a fresh id restores the board. */
  lemma AddThenDeleteTask(b: Board, d: TaskDraft, freshId: string, now: int)
    requires forall t :: t in b.tasks ==> t.id != freshId
    requires forall c :: c in b.comments ==> c.taskId != freshId
    requires forall a :: a in b.attachments ==> a.taskId != freshId
    ensures TaskDeleted(b.(tasks := b.tasks + [NewTask(d, freshId, now)]), freshId) == b
  {
    FilterOutAppended(b.tasks, NewTask(d, freshId, now), TaskIsNot(freshId));
    FilterKeepsAll(b.comments, CommentNotOn(freshId));
    FilterKeepsAll(b.attachments, AttachmentNotOn(freshId));
  }

  /** Deleting a comment just added under a fresh id restores the comments. */
  lemma AddThenDeleteComment(comments: seq<TaskComment>, taskId: string, userId: string, text: string,
                             freshId: string, now: int)
    requires forall c :: c in comments ==> c.id != freshId
    ensures Filter(comments + [NewComment(taskId, userId, text, freshId, now)], CommentIsNot(freshId)) == comments
  {
    FilterOutAppended(comments, NewComment(taskId, userId, text, freshId, now), CommentIsNot(freshId));
  }

  /** Deleting an attachment just added under a fresh id restores the
      attachments. */
  lemma AddThenDeleteAttachment(attachments: seq<TaskAttachment>, taskId: string, url: string, name: string,
                                size: int, uploader: string, freshId: string, now: int)
    requires forall a :: a in attachments ==> a.id != freshId
    ensures Filter(attachments + [NewAttachment(taskId, url, name, size, uploader, freshId, now)], AttachmentIsNot(freshId))
            == attachments
  {
    FilterOutAppended(attachments, NewAttachment(taskId, url, name, size, uploader, freshId, now), AttachmentIsNot(freshId));
  }

  // ---------------------------------------------------------------------
  // The store
  // ---------------------------------------------------------------------

  class TaskState {
    var tasks: seq<Task>
    var comments: seq<TaskComment>
    var attachments: seq<TaskAttachment>
    var taskStore: Store<Task>
    var commentStore: Store<TaskComment>
    var attachmentStore: Store<TaskAttachment>

    /** Memory and storage hold the same three arrays. */
    ghost predicate Synced() reads this {
      && Load(taskStore, TasksKey) == tasks
      && Load(commentStore, CommentsKey) == comments
      && Load(attachmentStore, AttachmentsKey) == attachments
    }

    /** The store's initial state is what storage holds. */
    constructor (taskStore0: Store<Task>, commentStore0: Store<TaskComment>, attachmentStore0: Store<TaskAttachment>)
      ensures taskStore == taskStore0 && commentStore == commentStore0 && attachmentStore == attachmentStore0
      ensures Synced()
    {
      taskStore, commentStore, attachmentStore := taskStore0, commentStore0, attachmentStore0;
      tasks := Load(taskStore0, TasksKey);
      comments := Load(commentStore0, CommentsKey);
      attachments := Load(attachmentStore0, AttachmentsKey);
    }

    method SetTasks(newTasks: seq<Task>)
      modifies this`tasks, this`taskStore
      ensures tasks == newTasks && taskStore == Save(old(taskStore), TasksKey, newTasks)
      ensures old(Synced()) ==> Synced()
    {
      tasks := newTasks;
      taskStore := Save(taskStore, TasksKey, newTasks);
    }

    /** `addTask`: appends the task under a fresh id, stamped with the clock. */
    method AddTask(d: TaskDraft, freshId: string, now: int) returns (task: Task)
      modifies this`tasks, this`taskStore
      ensures task == NewTask(d, freshId, now)
      ensures tasks == old(tasks) + [task] && taskStore == Save(old(taskStore), TasksKey, tasks)
      ensures old(Synced()) ==> Synced()
    {
      task := NewTask(d, freshId, now);
      tasks := tasks + [task];
      taskStore := Save(taskStore, TasksKey, tasks);
    }

    method UpdateTask(id: string, p: TaskPatch, now: int)
      modifies this`tasks, this`taskStore
      ensures tasks == TasksUpdated(old(tasks), id, p, now)
      ensures taskStore == Save(old(taskStore), TasksKey, tasks)
      ensures old(Synced()) ==> Synced()
    {
      tasks := TasksUpdated(tasks, id, p, now);
      taskStore := Save(taskStore, TasksKey, tasks);
    }

    /** `deleteTask`, with its cascade to comments and attachments. */
    method DeleteTask(id: string)
      modifies this
      ensures Board(tasks, comments, attachments) == TaskDeleted(old(Board(tasks, comments, attachments)), id)
      ensures taskStore == Save(old(taskStore), TasksKey, tasks)
      ensures commentStore == Save(old(commentStore), CommentsKey, comments)
      ensures attachmentStore == Save(old(attachmentStore), AttachmentsKey, attachments)
      ensures Synced()
    {
      var b := TaskDeleted(Board(tasks, comments, attachments), id);
      tasks, comments, attachments := b.tasks, b.comments, b.attachments;
      taskStore := Save(taskStore, TasksKey, tasks);
      commentStore := Save(commentStore, CommentsKey, comments);
      attachmentStore := Save(attachmentStore, AttachmentsKey, attachments);
    }

    /** `getGroupTasks`: exactly the group's tasks, in stored order. */
    function GroupTasks(groupId: string): (r: seq<Task>) reads this
      ensures forall t :: t in r <==> t in tasks && t.groupId == groupId
      ensures forall t :: multiset(r)[t] == if t.groupId == groupId then multiset(tasks)[t] else 0
      ensures IsSubsequence(r, tasks)
    {
      FilterMultiset(tasks, TaskInGroup(groupId));
      FilterIsSubsequence(tasks, TaskInGroup(groupId));
      Filter(tasks, TaskInGroup(groupId))
    }

    /** `getUserTasks`: exactly the tasks assigned to the user, in stored
        order; an unassigned task is nobody's. */
    function UserTasks(userId: string): (r: seq<Task>) reads this
      ensures forall t :: t in r <==> t in tasks && t.assigneeId == Some(userId)
      ensures forall t :: multiset(r)[t] == if t.assigneeId == Some(userId) then multiset(tasks)[t] else 0
      ensures IsSubsequence(r, tasks)
    {
      FilterMultiset(tasks, AssignedTo(userId));
      FilterIsSubsequence(tasks, AssignedTo(userId));
      Filter(tasks, AssignedTo(userId))
    }

    method AddComment(taskId: string, userId: string, text: string, freshId: string, now: int)
      returns (comment: TaskComment)
      modifies this`comments, this`commentStore
      ensures comment == NewComment(taskId, userId, text, freshId, now)
      ensures comments == old(comments) + [comment] && commentStore == Save(old(commentStore), CommentsKey, comments)
      ensures old(Synced()) ==> Synced()
    {
      comment := NewComment(taskId, userId, text, freshId, now);
      comments := comments + [comment];
      commentStore := Save(commentStore, CommentsKey, comments);
    }

    method DeleteComment(commentId: string)
      modifies this`comments, this`commentStore
      ensures comments == Filter(old(comments), CommentIsNot(commentId))
      ensures commentStore == Save(old(commentStore), CommentsKey, comments)
      ensures old(Synced()) ==> Synced()
    {
      comments := Filter(comments, CommentIsNot(commentId));
      commentStore := Save(commentStore, CommentsKey, comments);
    }

    /** `getTaskComments`: exactly the comments on the task. */
    function TaskComments(taskId: string): (r: seq<TaskComment>) reads this
      ensures forall c :: c in r <==> c in comments && c.taskId == taskId
      ensures forall c :: multiset(r)[c] == if c.taskId == taskId then multiset(comments)[c] else 0
    {
      FilterMultiset(comments, CommentOn(taskId));
      Filter(comments, CommentOn(taskId))
    }

    method AddAttachment(taskId: string, fileUrl: string, fileName: string, fileSize: int, uploadedBy: string,
                         freshId: string, now: int) returns (attachment: TaskAttachment)
      modifies this`attachments, this`attachmentStore
      ensures attachment == NewAttachment(taskId, fileUrl, fileName, fileSize, uploadedBy, freshId, now)
      ensures attachments == old(attachments) + [attachment]
      ensures attachmentStore == Save(old(attachmentStore), AttachmentsKey, attachments)
      ensures old(Synced()) ==> Synced()
    {
      attachment := NewAttachment(taskId, fileUrl, fileName, fileSize, uploadedBy, freshId, now);
      attachments := attachments + [attachment];
      attachmentStore := Save(attachmentStore, AttachmentsKey, attachments);
    }

    method DeleteAttachment(attachmentId: string)
      modifies this`attachments, this`attachmentStore
      ensures attachments == Filter(old(attachments), AttachmentIsNot(attachmentId))
      ensures attachmentStore == Save(old(attachmentStore), AttachmentsKey, attachments)
      ensures old(Synced()) ==> Synced()
    {
      attachments := Filter(attachments, AttachmentIsNot(attachmentId));
      attachmentStore := Save(attachmentStore, AttachmentsKey, attachments);
    }

    /** `getTaskAttachments`: exactly the attachments of the task. */
    function TaskAttachments(taskId: string): (r: seq<TaskAttachment>) reads this
      ensures forall a :: a in r <==> a in attachments && a.taskId == taskId
      ensures forall a :: multiset(r)[a] == if a.taskId == taskId then multiset(attachments)[a] else 0
    {
      FilterMultiset(attachments, AttachmentOn(taskId));
      Filter(attachments, AttachmentOn(taskId))
    }

    /** `loadFromStorage` (also what a storage event from another tab runs). */
    method LoadFromStorage()
      modifies this`tasks, this`comments, this`attachments
      ensures Synced()
    {
      tasks := Load(taskStore, TasksKey);
      comments := Load(commentStore, CommentsKey);
      attachments := Load(attachmentStore, AttachmentsKey);
    }

    method SaveToStorage()
      modifies this`taskStore, this`commentStore, this`attachmentStore
      ensures taskStore == Save(old(taskStore), TasksKey, tasks)
      ensures commentStore == Save(old(commentStore), CommentsKey, comments)
      ensures attachmentStore == Save(old(attachmentStore), AttachmentsKey, attachments)
      ensures Synced()
    {
      taskStore := Save(taskStore, TasksKey, tasks);
      commentStore := Save(commentStore, CommentsKey, comments);
      attachmentStore := Save(attachmentStore, AttachmentsKey, attachments);
    }
  }
}
