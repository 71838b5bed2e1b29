/**
 * The task detail dialog: its comment thread with the guarded append, the
 * relative time shown beside each comment, and the status and priority
 * buttons, which send an update for the dialog's task to the page.
 */
module TaskModal {
  import opened Tasks
  import opened Decimal
  import Text

  /** A comment's author as the dialog shows it: a name and the avatar's initials. */
  datatype Author = Author(name: string, avatar: string)

  /** A comment; `timestamp` is its time value in milliseconds. */
  datatype Comment = Comment(id: string, author: Author, text: string, timestamp: int)

  /** The thread every dialog opens with (written at 2024-11-12 10:30, taken as UTC). */
  const SeedComment := Comment("1", Author("Sarah Chen", "SC"), "Started working on this", 1731407400000)

  /** The ids of a comment list, in order. */
  function CommentIds(comments: seq<Comment>): (r: seq<string>)
    ensures |r| == |comments| && forall i :: 0 <= i < |comments| ==> r[i] == comments[i].id
  {
    seq(|comments|, i requires 0 <= i < |comments| => comments[i].id)
  }

  /** The comment added to a thread of `count` comments, written at `now`. */
  function NewComment(count: nat, text: string, now: int): Comment
  {
    Comment(NatToString(count + 1), Author("You", "YO"), text, now)
  }

  /** Appending new comments keeps the ids "1", "2", ..., so the new id is none of the earlier ones. */
  lemma NewCommentIds(comments: seq<Comment>, text: string, now: int)
    requires SequentialIds(CommentIds(comments))
    ensures SequentialIds(CommentIds(comments + [NewComment(|comments|, text, now)]))
    ensures forall i :: 0 <= i < |comments| ==> comments[i].id != NewComment(|comments|, text, now).id
  {
    var after := comments + [NewComment(|comments|, text, now)];
    assert CommentIds(after) == CommentIds(comments) + [NatToString(|comments| + 1)];
    AppendNextId(CommentIds(comments));
    forall i | 0 <= i < |comments| ensures comments[i].id != NewComment(|comments|, text, now).id {
      NatToStringInjective(i + 1, |comments| + 1);
    }
  }

  /** What `formatTime` shows: minutes, hours, or the locale date of the timestamp. */
  datatype RelativeTime = MinutesAgo(minutes: int) | HoursAgo(hours: int) | LocaleDate(timestamp: int)

  /**
   * `formatTime(timestamp)` at time `now`: whole minutes elapsed (rounded
   * down) below an hour, else whole hours below a day, else the date.
   */
  function FormatTime(timestamp: int, now: int): RelativeTime
  {
    var diffMs := now - timestamp;
    var diffMins := diffMs / 60000;
    if diffMins < 60 then MinutesAgo(diffMins)
    else
      var diffHours := diffMins / 60;
      if diffHours < 24 then HoursAgo(diffHours) else LocaleDate(timestamp)
  }

  /**
   * The buckets in terms of the elapsed milliseconds: "Nm ago" below one hour
   * with N the whole minutes elapsed, "Hh ago" from one hour to below one day
   * with H the whole hours elapsed, the date from one day on.
   */
  lemma FormatTimeSpec(timestamp: int, now: int)
    ensures FormatTime(timestamp, now).MinutesAgo? <==> now - timestamp < 3600000
    ensures FormatTime(timestamp, now).HoursAgo? <==> 3600000 <= now - timestamp < 86400000
    ensures FormatTime(timestamp, now).LocaleDate? <==> 86400000 <= now - timestamp
    ensures FormatTime(timestamp, now).MinutesAgo? ==>
              var n := FormatTime(timestamp, now).minutes;
              n < 60 && 60000 * n <= now - timestamp < 60000 * (n + 1)
    ensures FormatTime(timestamp, now).HoursAgo? ==>
              var h := FormatTime(timestamp, now).hours;
              1 <= h < 24 && 3600000 * h <= now - timestamp < 3600000 * (h + 1)
    ensures FormatTime(timestamp, now).LocaleDate? ==> FormatTime(timestamp, now) == LocaleDate(timestamp)
  {
    var d := now - timestamp;
    var m := d / 60000;
    var h := m / 60;
    assert 60000 * m <= d < 60000 * (m + 1);
    assert 60 * h <= m < 60 * (h + 1);
    assert 3600000 * h <= d < 3600000 * (h + 1) by {
      assert 60000 * (60 * h) <= 60000 * m;
      assert 60000 * m + 60000 <= 60000 * (60 * h + 60);
    }
  }

  /** The dialog for one task. */
  class TaskModal {
    const task: Task
    var comments: seq<Comment>
    var newComment: string
    var showCommentInput: bool

    constructor (task: Task)
      ensures this.task == task
      ensures comments == [SeedComment] && SequentialIds(CommentIds(comments))
      ensures newComment == "" && !showCommentInput
    {
      this.task := task;
      comments := [SeedComment];
      newComment := "";
      showCommentInput := false;
      new;
      assert CommentIds(comments) == [NatToString(1)];
    }

    /** `handleStatusChange(newStatus)`: `onUpdate(task.id, { status: newStatus })`. */
    method HandleStatusChange(newStatus: string) returns (cmd: UpdateCommand)
      ensures cmd == UpdateCommand(task.id, StatusPatch(newStatus))
    {
      cmd := UpdateCommand(task.id, StatusPatch(newStatus));
    }

    /** `handlePriorityChange(newPriority)`: `onUpdate(task.id, { priority: newPriority })`. */
    method HandlePriorityChange(newPriority: string) returns (cmd: UpdateCommand)
      ensures cmd == UpdateCommand(task.id, PriorityPatch(newPriority))
    {
      cmd := UpdateCommand(task.id, PriorityPatch(newPriority));
    }

    /** The "Add Comment" button: show the input. */
    method OpenCommentInput()
      modifies this
      ensures showCommentInput
      ensures comments == old(comments) && newComment == old(newComment)
    {
      showCommentInput := true;
    }

    /** The input's "Cancel" button: hide the input; the draft stays. */
    method CancelCommentInput()
      modifies this
      ensures !showCommentInput
      ensures comments == old(comments) && newComment == old(newComment)
    {
      showCommentInput := false;
    }

    /** Typing into the comment input. */
    method EditComment(value: string)
      modifies this
      ensures newComment == value
      ensures comments == old(comments) && showCommentInput == old(showCommentInput)
    {
      newComment := value;
    }

    /**
     * `handleAddComment()` at time `now`: a draft with some non-white
     * character is appended as comment `String(length + 1)` by "You", and the
     * draft is cleared and the input hidden; a blank draft changes nothing.
     */
    method HandleAddComment(now: int)
      modifies this
      ensures !Text.IsBlank(old(newComment)) ==>
                && comments == old(comments) + [NewComment(|old(comments)|, old(newComment), now)]
                && newComment == "" && !showCommentInput
      ensures Text.IsBlank(old(newComment)) ==>
                comments == old(comments) && newComment == old(newComment) &&
                showCommentInput == old(showCommentInput)
      ensures SequentialIds(CommentIds(old(comments))) ==> SequentialIds(CommentIds(comments))
    {
      Text.TrimEmptyIffBlank(newComment);
      if Text.Trim(newComment) != "" {
        if SequentialIds(CommentIds(comments)) {
          NewCommentIds(comments, newComment, now);
        }
        comments := comments + [NewComment(|comments|, newComment, now)];
        newComment := "";
        showCommentInput := false;
      }
    }
  }
}
