/**
 * How Mongo keeps messages: documents of 100 consecutive numbers, written by BatchInsertBlock
 * (pkg/common/db/controller/msg.go) with a guess at whether to update or to create. The rest of this
 * project sees one flat table; here the documents are shown to refine it.
 */
module MongoBlocks {
  import opened Messages
  import opened Storage

  /** Entry i of a document is for the number with remainder i. */
  type Doc = seq<Option<MsgData>>

  /** The conversation and the block number; indexGen writes them as one string. */
  type DocID = (string, int)

  type Docs = map<DocID, Doc>

  function GetDocID(conversationID: string, seqNo: int): DocID {
    (conversationID, (seqNo - 1) / SINGLE_GOC_MSG_NUM)
  }

  function GetMsgIndex(seqNo: int): (i: nat)
    ensures i < SINGLE_GOC_MSG_NUM
  {
    (seqNo - 1) % SINGLE_GOC_MSG_NUM
  }

  predicate WellFormed(docs: Docs) {
    forall id <- docs :: |docs[id]| == SINGLE_GOC_MSG_NUM
  }

  function Entry(doc: Doc, index: nat): Option<MsgData> {
    if index < |doc| then doc[index] else None
  }

  function Lookup(docs: Docs, slot: Slot): Option<MsgData> {
    var id := GetDocID(slot.conversationID, slot.seqNo);
    if id in docs then Entry(docs[id], GetMsgIndex(slot.seqNo)) else None
  }

  function Get(table: Table, slot: Slot): Option<MsgData> {
    if slot in table then Some(table[slot]) else None
  }

  /** The documents hold exactly the rows of the flat table. */
  ghost predicate Represents(docs: Docs, table: Table) {
    WellFormed(docs) && forall slot :: Lookup(docs, slot) == Get(table, slot)
  }

  predicate InRange(slot: Slot, conversationID: string, first: int, n: nat) {
    slot.conversationID == conversationID && first <= slot.seqNo < first + n
  }

  /** What writing consecutively numbered messages does to one slot. */
  lemma {:induction false} PutRange(table: Table, conversationID: string, ms: seq<MsgData>, first: int, slot: Slot)
    requires forall i | 0 <= i < |ms| :: ms[i].seqNo == first + i
    ensures Get(Put(table, conversationID, ms), slot) ==
      if InRange(slot, conversationID, first, |ms|) then Some(ms[slot.seqNo - first]) else Get(table, slot)
  {
    if ms != [] {
      PutRange(table, conversationID, ms[..|ms| - 1], first, slot);
    }
  }

  lemma {:induction false} PutConcat(table: Table, conversationID: string, a: seq<MsgData>, b: seq<MsgData>)
    ensures Put(table, conversationID, a + b) == Put(Put(table, conversationID, a), conversationID, b)
  {
    if b == [] {
      assert a + b == a;
    } else {
      PutConcat(table, conversationID, a, b[..|b| - 1]);
      assert (a + b)[..|a + b| - 1] == a + b[..|b| - 1];
    }
  }

  /** Numbers `d` apart share a document as long as the later one still fits behind the earlier. */
  lemma SameBlock(seqNo: int, d: nat)
    ensures (seqNo + d - 1) / SINGLE_GOC_MSG_NUM == (seqNo - 1) / SINGLE_GOC_MSG_NUM
       <==> GetMsgIndex(seqNo) + d < SINGLE_GOC_MSG_NUM
    ensures GetMsgIndex(seqNo) + d < SINGLE_GOC_MSG_NUM ==> GetMsgIndex(seqNo + d) == GetMsgIndex(seqNo) + d
  {
  }

  /** The document BatchInsertBlock builds: `n` messages from index `base` on, the rest empty. */
  ghost predicate IsBlock(doc: Doc, base: nat, ms: seq<MsgData>) {
    && |doc| == SINGLE_GOC_MSG_NUM && base + |ms| <= SINGLE_GOC_MSG_NUM
    && forall k | 0 <= k < |doc| :: doc[k] == if base <= k < base + |ms| then Some(ms[k - base]) else None
  }

  /** One message written into a document that exists. */
  lemma UpdateRepresents(docs: Docs, table: Table, conversationID: string, m: MsgData)
    requires Represents(docs, table) && GetDocID(conversationID, m.seqNo) in docs
    ensures var id := GetDocID(conversationID, m.seqNo);
      Represents(docs[id := docs[id][GetMsgIndex(m.seqNo) := Some(m)]], table[Slot(conversationID, m.seqNo) := m])
  {
    var id := GetDocID(conversationID, m.seqNo);
    var docs' := docs[id := docs[id][GetMsgIndex(m.seqNo) := Some(m)]];
    forall slot ensures Lookup(docs', slot) == Get(table[Slot(conversationID, m.seqNo) := m], slot) {
      assert Lookup(docs, slot) == Get(table, slot);
      if GetDocID(slot.conversationID, slot.seqNo) == id && GetMsgIndex(slot.seqNo) == GetMsgIndex(m.seqNo) {
        assert slot.seqNo == m.seqNo;
        assert slot == Slot(conversationID, m.seqNo);
      }
    }
  }

  /** A whole new document. */
  lemma CreateRepresents(docs: Docs, table: Table, conversationID: string, ms: seq<MsgData>, first: int, doc: Doc)
    requires Represents(docs, table) && GetDocID(conversationID, first) !in docs
    requires forall i | 0 <= i < |ms| :: ms[i].seqNo == first + i
    requires IsBlock(doc, GetMsgIndex(first), ms)
    ensures Represents(docs[GetDocID(conversationID, first) := doc], Put(table, conversationID, ms))
  {
    var docs' := docs[GetDocID(conversationID, first) := doc];
    forall slot ensures Lookup(docs', slot) == Get(Put(table, conversationID, ms), slot) {
      CreateAt(docs, table, conversationID, ms, first, doc, slot);
    }
  }

  lemma CreateAt(docs: Docs, table: Table, conversationID: string, ms: seq<MsgData>, first: int, doc: Doc, slot: Slot)
    requires Lookup(docs, slot) == Get(table, slot) && GetDocID(conversationID, first) !in docs
    requires forall i | 0 <= i < |ms| :: ms[i].seqNo == first + i
    requires IsBlock(doc, GetMsgIndex(first), ms)
    ensures Lookup(docs[GetDocID(conversationID, first) := doc], slot) == Get(Put(table, conversationID, ms), slot)
  {
    PutRange(table, conversationID, ms, first, slot);
    SlotInBlock(slot, conversationID, first, |ms|);
  }

  lemma SlotInBlock(slot: Slot, conversationID: string, first: int, n: nat)
    requires GetMsgIndex(first) + n <= SINGLE_GOC_MSG_NUM
    ensures InRange(slot, conversationID, first, n) <==>
      && GetDocID(slot.conversationID, slot.seqNo) == GetDocID(conversationID, first)
      && GetMsgIndex(first) <= GetMsgIndex(slot.seqNo) < GetMsgIndex(first) + n
    ensures InRange(slot, conversationID, first, n) ==>
      slot.seqNo - first == GetMsgIndex(slot.seqNo) - GetMsgIndex(first)
  {
  }

  /** Document `d` of a conversation is for the hundred numbers after 100 d, in order. */
  lemma DocumentNumbers(conversationID: string, d: int, seqNo: int)
    ensures GetDocID(conversationID, seqNo) == (conversationID, d) <==> 100 * d < seqNo <= 100 * d + 100
    ensures GetDocID(conversationID, seqNo) == (conversationID, d) ==> GetMsgIndex(seqNo) == seqNo - 100 * d - 1
  {
  }

  predicate Consecutive(fields: seq<MsgData>, firstSeq: int) {
    forall i | 0 <= i < |fields| :: fields[i].seqNo == firstSeq + i
  }

  /** The first n messages are written. */
  ghost predicate Holds(docs: Docs, table: Table, conversationID: string, fields: seq<MsgData>, n: nat)
    requires n <= |fields|
  {
    Represents(docs, Put(table, conversationID, fields[..n]))
  }

  /** The check of the numbers before anything is written. */
  method CheckSeqs(fields: seq<MsgData>, firstSeq: int) returns (ok: bool)
    ensures ok <==> Consecutive(fields, firstSeq)
  {
    for i := 0 to |fields|
      invariant forall j | 0 <= j < i :: fields[j].seqNo == firstSeq + j
    {
      if fields[i].seqNo != firstSeq + i {
        return false;
      }
    }
    return true;
  }

  class MsgDocDatabase {
    var docs: Docs

    /** UpdateOne: whether the document was there. */
    method UpdateMsg(id: DocID, index: nat, m: MsgData) returns (matched: bool)
      requires WellFormed(docs) && index < SINGLE_GOC_MSG_NUM
      modifies this
      ensures matched <==> id in old(docs)
      ensures docs == if matched then old(docs)[id := old(docs)[id][index := Some(m)]] else old(docs)
    {
      matched := id in docs;
      if matched {
        docs := docs[id := docs[id][index := Some(m)]];
      }
    }

    /** InsertOne: fails with a duplicate key when the document is there already. */
    method Create(id: DocID, doc: Doc) returns (duplicate: bool)
      modifies this
      ensures duplicate <==> id in old(docs)
      ensures docs == if duplicate then old(docs) else old(docs)[id := doc]
    {
      duplicate := id in docs;
      if !duplicate {
        docs := docs[id := doc];
      }
    }

    /** The loop that fills a new document with the messages of its block, from message i on. */
    method BuildDoc(conversationID: string, fields: seq<MsgData>, firstSeq: int, i: nat) returns (doc: Doc, insert: nat)
      requires i < |fields|
      ensures 0 < insert <= |fields| - i
      ensures IsBlock(doc, GetMsgIndex(firstSeq + i), fields[i..i + insert])
      ensures i + insert < |fields| ==>
        GetDocID(conversationID, firstSeq + i + insert) != GetDocID(conversationID, firstSeq + i)
    {
      doc := seq(SINGLE_GOC_MSG_NUM, _ => None);
      insert := 0;
      ghost var base := GetMsgIndex(firstSeq + i);
      while i + insert < |fields|
        invariant i + insert <= |fields|
        invariant IsBlock(doc, base, fields[i..i + insert])
      {
        SameBlock(firstSeq + i, insert);
        if GetDocID(conversationID, firstSeq + i + insert) != GetDocID(conversationID, firstSeq + i) {
          break;
        }
        assert fields[i..i + insert + 1] == fields[i..i + insert] + [fields[i + insert]];
        doc := doc[GetMsgIndex(firstSeq + i + insert) := Some(fields[i + insert])];
        insert := insert + 1;
      }
    }

    /** updateMsgModel: write one message into its document, if that exists. */
    method UpdateOne(conversationID: string, fields: seq<MsgData>, firstSeq: int, i: nat, ghost table: Table)
      returns (matched: bool)
      requires i < |fields| && fields[i].seqNo == firstSeq + i && Holds(docs, table, conversationID, fields, i)
      modifies this
      ensures matched <==> GetDocID(conversationID, firstSeq + i) in old(docs)
      ensures if matched then Holds(docs, table, conversationID, fields, i + 1) else docs == old(docs)
    {
      ghost var before := docs;
      matched := UpdateMsg(GetDocID(conversationID, firstSeq + i), GetMsgIndex(firstSeq + i), fields[i]);
      if matched {
        UpdateRepresents(before, Put(table, conversationID, fields[..i]), conversationID, fields[i]);
        assert fields[..i + 1][..i] == fields[..i];
      }
    }

    /** Create the document of message i with all the messages that belong into it. */
    method CreateBlock(conversationID: string, fields: seq<MsgData>, firstSeq: int, i: nat, ghost table: Table)
      returns (duplicate: bool, insert: nat)
      requires i < |fields| && Consecutive(fields, firstSeq) && Holds(docs, table, conversationID, fields, i)
      modifies this
      ensures duplicate <==> GetDocID(conversationID, firstSeq + i) in old(docs)
      ensures 0 < insert <= |fields| - i
      ensures if duplicate then docs == old(docs) else Holds(docs, table, conversationID, fields, i + insert)
    {
      ghost var before := docs;
      var doc;
      doc, insert := BuildDoc(conversationID, fields, firstSeq, i);
      duplicate := Create(GetDocID(conversationID, firstSeq + i), doc);
      if !duplicate {
        var block := fields[i..i + insert];
        CreateRepresents(before, Put(table, conversationID, fields[..i]), conversationID, block, firstSeq + i, doc);
        PutConcat(table, conversationID, fields[..i], block);
        assert fields[..i] + block == fields[..i + insert];
      }
    }

    /**
     * BatchInsertBlock. Mongo answers `answers` operations and then fails; twice as many as there are
     * messages are always enough. However many documents the batch touches and whichever of them
     * exist, the result is the flat table with the messages before the failure written to it, all of
     * them if there is none; a batch with a wrong number is refused.
     */
    method BatchInsertBlock(
      conversationID: string, fields: seq<MsgData>, firstSeq: int, answers: nat, ghost table: Table)
      returns (ok: bool, ghost stored: nat)
      requires Represents(docs, table)
      modifies this
      ensures stored <= |fields| && Represents(docs, Put(table, conversationID, fields[..stored]))
      ensures ok ==> stored == |fields|
      ensures !Consecutive(fields, firstSeq) ==> !ok && stored == 0
      ensures Consecutive(fields, firstSeq) && answers >= 2 * |fields| ==> ok
    {
      stored := 0;
      assert fields[..0] == [];
      var consecutive := CheckSeqs(fields, firstSeq);
      if !consecutive {
        return false, 0;
      }
      var tryUpdate := true;
      var used := 0;
      var i := 0;
      while i < |fields|
        invariant i <= |fields| && stored == i && used <= answers
        invariant used <= 2 * i + if tryUpdate && GetDocID(conversationID, firstSeq + i) in docs then 1 else 0
        invariant Holds(docs, table, conversationID, fields, i)
        decreases |fields| - i, if tryUpdate then 0 else 1
      {
        if tryUpdate {
          if used == answers {
            return false, stored;
          }
          used := used + 1;
          var matched := UpdateOne(conversationID, fields, firstSeq, i, table);
          if matched {
            i := i + 1;
            stored := i;
            continue;
          }
        }
        if used == answers {
          return false, stored;
        }
        used := used + 1;
        var duplicate, insert := CreateBlock(conversationID, fields, firstSeq, i, table);
        if duplicate {
          tryUpdate := true;
          continue;
        }
        tryUpdate := false;
        i := i + insert;
        stored := i;
      }
      assert fields[..|fields|] == fields;
      ok := true;
    }
  }
}
