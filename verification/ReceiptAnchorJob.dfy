/**
 The scheduled anchor (receipt_anchor_job.go): once a slot it anchors the whole
 store to a file and to the operator channel, and warns when the store no longer
 reproduces the anchor it took last.
 */
module ReceiptAnchorJob {
  import opened Wrappers
  import opened ReceiptAnchor

  /** chainReaches: some prefix of the chain ends in link. */
  method ChainReaches(links: seq<Link>, link: Link) returns (found: bool)
    ensures found <==> link in links
  {
    for i := 0 to |links|
      invariant link !in links[..i]
    {
      if links[i] == link {
        return true;
      }
    }
    return false;
  }

  /** What each destination last received; None stands for the empty string. */
  datatype JobState = JobState(slotAt: Option<int>, link: Option<Link>, file: string,
                               fileLink: Option<Link>, notifyLink: Option<Link>)

  /** How one tick ended, and whether it logged that the previous anchor is no longer reproduced. */
  datatype TickResult =
    | NotDue
    | StoreUnreadable
    | FileFailed(warned: bool)
    | SendFailed(warned: bool)
    | Anchored(warned: bool)

  const RETRY_AFTER: int := 60  // seconds

  /** This destination holds the anchor of these rows, or the history is empty and it never got one. */
  predicate Current(had: Option<Link>, rows: History) {
    had == Some(Chain(rows)) || (had == None && rows == [])
  }

  predicate NoRepeats(hs: seq<History>) {
    forall i :: 0 < i < |hs| ==> hs[i] != hs[i - 1]
  }

  lemma NoRepeatsAppend(hs: seq<History>, h: History)
    requires NoRepeats(hs) && (hs != [] ==> hs[|hs| - 1] != h)
    ensures NoRepeats(hs + [h])
  {
  }

  class Job {
    const file: string   // "" for no file
    const notify: bool   // whether there is an operator channel to send to
    var last: JobState
    var retryAt: int

    ghost var anchored: Option<History>  // the history of the last finished tick
    ghost var lines: seq<History>        // the histories this job appended to its file, oldest first
    ghost var messages: seq<History>     // the histories it sent, oldest first

    /** The job's memory names the histories it anchored, and nothing was repeated. */
    ghost predicate Valid()
      reads this
    {
      && last.link == (if anchored.Some? then Some(Chain(anchored.value)) else None)
      && (lines != [] ==> last.file == file && last.fileLink == Some(Chain(lines[|lines| - 1])))
      && (messages != [] ==> last.notifyLink == Some(Chain(messages[|messages| - 1])))
      && NoRepeats(lines) && NoRepeats(messages)
    }

    /** What the file received last, as far as the state says; another file counts as none. */
    function FileHad(): Option<Link>
      reads this
    {
      if last.file == file then last.fileLink else None
    }

    constructor (file: string, notify: bool, stored: JobState, ghost history: Option<History>)
      requires stored.link == (if history.Some? then Some(Chain(history.value)) else None)
      ensures Valid()
      ensures this.file == file && this.notify == notify && last == stored
      ensures anchored == history && lines == [] && messages == []
    {
      this.file := file;
      this.notify := notify;
      last := stored;
      retryAt := 0;
      anchored := history;
      lines := [];
      messages := [];
    }

    /** The file is to get the anchor of these rows: there is one, and it does not hold it. */
    predicate FileDue(rows: History)
      reads this
    {
      file != "" && !Current(FileHad(), rows)
    }

    predicate ChannelDue(rows: History)
      reads this
    {
      notify && !Current(last.notifyLink, rows)
    }

    /** Appends the anchor of store to the file unless it is there already; false when the append failed. */
    method UpdateFile(store: History, link: Link, writes: bool) returns (ok: bool)
      requires Valid() && link == Chain(store)
      modifies this`last, this`lines
      ensures Valid()
      ensures ok <==> !old(FileDue(store)) || writes
      // One append when it is due and succeeds, recorded with it; nothing otherwise.
      ensures lines == old(lines) + (if old(FileDue(store)) && writes then [store] else [])
      ensures last == if lines == old(lines) then old(last) else old(last).(file := file, fileLink := Some(link))
      ensures ok ==> !FileDue(store)
    {
      var had := last.fileLink;
      if last.file != file {
        had := None;
      }
      if file != "" && !(had == Some(link) || (had == None && |store| == 0)) {
        if !writes {
          return false;
        }
        NoRepeatsAppend(lines, store);
        last := last.(file := file, fileLink := Some(link));
        lines := lines + [store];
      }
      return true;
    }

    /** Sends the anchor of store unless the channel has it already; false when the send failed. */
    method UpdateChannel(store: History, link: Link, sends: bool) returns (ok: bool)
      requires Valid() && link == Chain(store)
      modifies this`last, this`messages
      ensures Valid()
      ensures ok <==> !old(ChannelDue(store)) || sends
      ensures messages == old(messages) + (if old(ChannelDue(store)) && sends then [store] else [])
      ensures last == if messages == old(messages) then old(last) else old(last).(notifyLink := Some(link))
      ensures ok ==> !ChannelDue(store)
    {
      if notify && !(last.notifyLink == Some(link) || (last.notifyLink == None && |store| == 0)) {
        if !sends {
          return false;
        }
        NoRepeatsAppend(messages, store);
        last := last.(notifyLink := Some(link));
        messages := messages + [store];
      }
      return true;
    }

    /** The file first; the channel only when nothing failed there. */
    method Deliver(store: History, link: Link, writes: bool, sends: bool) returns (written: bool, sent: bool)
      requires Valid() && link == Chain(store)
      modifies this`last, this`lines, this`messages
      ensures Valid()
      ensures written <==> !old(FileDue(store)) || writes
      ensures sent <==> written && (!old(ChannelDue(store)) || sends)
      ensures lines == old(lines) + (if old(FileDue(store)) && writes then [store] else [])
      ensures messages == old(messages) + (if written && old(ChannelDue(store)) && sends then [store] else [])
      ensures last.slotAt == old(last.slotAt) && last.link == old(last.link)
      ensures lines == old(lines) ==> last.file == old(last.file) && last.fileLink == old(last.fileLink)
      ensures messages == old(messages) ==> last.notifyLink == old(last.notifyLink)
      ensures sent ==> !FileDue(store) && !ChannelDue(store)
    {
      sent := false;
      written := UpdateFile(store, link, writes);
      if written {
        sent := UpdateChannel(store, link, sends);
      }
    }

    /** The store's own link, and whether the history anchored last is still a prefix of the store. */
    method Extends(store: History) returns (link: Link, extends': bool)
      requires Valid()
      ensures link == Chain(store)
      ensures extends' <==> anchored.None? || anchored.value <= store
    {
      var links := ReceiptChainLinks(store);
      link := links[|store|];
      assert store[..|store|] == store;
      extends' := true;
      if last.link.Some? {
        extends' := ChainReaches(links, last.link.value);
        ReachesIffPrefix(store, anchored.value);
      }
    }

    /** One slot's work on the store as it was read. */
    method AnchorStore(now: int, store: History, writes: bool, sends: bool) returns (r: TickResult)
      requires Valid()
      modifies this
      ensures Valid()
      ensures r.FileFailed? || r.SendFailed? || r.Anchored?
      // The warning is exact: the history anchored last is no longer a prefix of the store.
      ensures r.warned <==> old(anchored).Some? && !(old(anchored).value <= store)
      // How it ends, and what each destination receives.
      ensures r.FileFailed? <==> old(FileDue(store)) && !writes
      ensures r.SendFailed? <==> !r.FileFailed? && old(ChannelDue(store)) && !sends
      ensures lines == old(lines) + (if old(FileDue(store)) && writes then [store] else [])
      ensures messages == old(messages) + (if !r.FileFailed? && old(ChannelDue(store)) && sends then [store] else [])
      // What the job remembers of a destination changes only with what that receives.
      ensures lines == old(lines) ==> last.file == old(last.file) && last.fileLink == old(last.fileLink)
      ensures messages == old(messages) ==> last.notifyLink == old(last.notifyLink)
      // A finished slot leaves every destination with the store's anchor; any other stays open.
      ensures r.Anchored? ==> anchored == Some(store) && last.slotAt == Some(now) && !FileDue(store) && !ChannelDue(store)
      ensures r.Anchored? ==> retryAt == old(retryAt)
      ensures !r.Anchored? ==> anchored == old(anchored) && last.slotAt == old(last.slotAt) && retryAt == now + RETRY_AFTER
    {
      var link, extends' := Extends(store);
      var written, sent := Deliver(store, link, writes, sends);
      if !sent {
        retryAt := now + RETRY_AFTER;
        return if written then SendFailed(!extends') else FileFailed(!extends');
      }
      last := last.(slotAt := Some(now), link := Some(link));
      anchored := Some(store);
      return Anchored(!extends');
    }

    /**
     due says whether the slot after the last one has come (always, when there
     was none); rows is None when the store cannot be read; writes and sends say
     whether the append and the message succeed.
     */
    method Tick(now: int, due: bool, rows: Option<History>, writes: bool, sends: bool) returns (r: TickResult)
      requires Valid()
      modifies this
      ensures Valid()
      ensures r.NotDue? <==> now < old(retryAt) || (old(last.slotAt).Some? && !due)
      ensures r.StoreUnreadable? <==> !r.NotDue? && rows.None?
      ensures r.FileFailed? <==> !r.NotDue? && rows.Some? && old(FileDue(rows.value)) && !writes
      ensures r.SendFailed? <==> !r.NotDue? && rows.Some? && !r.FileFailed? && old(ChannelDue(rows.value)) && !sends
      // The warning is exact: the history anchored last is no longer a prefix of the store.
      ensures r.FileFailed? || r.SendFailed? || r.Anchored? ==>
              (r.warned <==> old(anchored).Some? && !(old(anchored).value <= rows.value))
      // Each destination that is due receives the anchor once, and no other receives anything.
      ensures lines == old(lines) +
                       (if !r.NotDue? && rows.Some? && old(FileDue(rows.value)) && writes then [rows.value] else [])
      ensures messages == old(messages) +
                          (if !r.NotDue? && rows.Some? && !r.FileFailed? && old(ChannelDue(rows.value)) && sends then [rows.value] else [])
      // What the job remembers of a destination changes only with what that receives.
      ensures lines == old(lines) ==> last.file == old(last.file) && last.fileLink == old(last.fileLink)
      ensures messages == old(messages) ==> last.notifyLink == old(last.notifyLink)
      // A finished tick leaves every destination with the store's anchor.
      ensures r.Anchored? ==> anchored == rows && last.slotAt == Some(now) && !FileDue(rows.value) && !ChannelDue(rows.value)
      // Any other tick keeps the slot open, so the work is done again.
      ensures !r.Anchored? ==> anchored == old(anchored) && last.slotAt == old(last.slotAt)
      ensures retryAt == if r.NotDue? || r.Anchored? then old(retryAt) else now + RETRY_AFTER
    {
      if now < retryAt || (last.slotAt.Some? && !due) {
        return NotDue;
      }
      if rows.None? {
        retryAt := now + RETRY_AFTER;
        return StoreUnreadable;
      }
      r := AnchorStore(now, rows.value, writes, sends);
    }
  }
}
