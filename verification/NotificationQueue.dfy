/**
 The notifications waiting for the notifier thread: a linked list with a head and a
 tail pointer, used as a queue under one mutex.
 */
module NotificationQueue {
  import opened Common

  datatype Kind = Nothing | FinReq | NtpSyncComplete

  datatype Notice = Notice(kind: Kind, additional: bool)

  class Notification {
    const notice: Notice
    var next: Notification?

    constructor (notice: Notice)
      ensures this.notice == notice && next == null
    {
      this.notice := notice;
      next := null;
    }
  }

  function Notices(nodes: seq<Notification>): (r: seq<Notice>)
    ensures |r| == |nodes| && forall i :: 0 <= i < |r| ==> r[i] == nodes[i].notice
  {
    seq(|nodes|, i requires 0 <= i < |nodes| => nodes[i].notice)
  }

  class Notifications {
    var head: Notification?
    var tail: Notification?
    ghost var nodes: seq<Notification>   // the chain from head to tail

    ghost predicate Valid()
      reads this, nodes
    {
      && (forall i, j :: 0 <= i < j < |nodes| ==> nodes[i] != nodes[j])
      && (forall i :: 0 <= i < |nodes| - 1 ==> nodes[i].next == nodes[i + 1])
      && (if nodes == [] then head == null && tail == null
          else head == nodes[0] && tail == nodes[|nodes| - 1] && tail.next == null)
    }

    ghost function Contents(): seq<Notice>
      reads this
    {
      Notices(nodes)
    }

    constructor ()
      ensures Valid() && Contents() == [] && nodes == []
    {
      head, tail, nodes := null, null, [];
    }

    /** The locked part of a post: the thread id is tested again, and a thread that
        has gone gets nothing. */
    method PostNotification(notice: Notice, alive: bool) returns (posted: bool)
      requires Valid()
      modifies this, nodes
      ensures Valid() && fresh(set n | n in nodes && n !in old(nodes))
      ensures posted == alive
      ensures Contents() == if alive then old(Contents()) + [notice] else old(Contents())
    {
      posted := alive;
      if alive {
        var notif := new Notification(notice);
        if tail == null {
          tail := notif;
          head := notif;
        } else {
          tail.next := notif;
          tail := notif;
        }
        nodes := nodes + [notif];
      }
    }

    method GetNotification() returns (notif: Option<Notice>)
      requires Valid()
      modifies this
      ensures Valid()
      ensures if old(Contents()) == [] then notif == None && Contents() == []
              else notif == Some(old(Contents())[0]) && Contents() == old(Contents())[1..]
    {
      notif := None;
      if head != null {
        var first := head;
        notif := Some(first.notice);
        head := first.next;
        if first.next == null {
          tail := null;
        }
        nodes := nodes[1..];
      }
    }

    method DeleteAllNotifications()
      requires Valid()
      modifies this
      ensures Valid() && Contents() == []
    {
      ghost var i := 0;
      while head != null
        invariant 0 <= i <= |nodes| && nodes == old(nodes)
        invariant forall k :: 0 <= k < |nodes| - 1 ==> nodes[k].next == nodes[k + 1]
        invariant nodes != [] ==> nodes[|nodes| - 1].next == null
        invariant head == if i < |nodes| then nodes[i] else null
        decreases |nodes| - i
      {
        head := head.next;
        i := i + 1;
      }
      tail, nodes := null, [];
    }
  }
}
