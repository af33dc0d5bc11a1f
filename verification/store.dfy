/** The local mirror: the two Mongoose collections as sequences of records in
    storage order, and the writes the handlers perform on them. */
module Store {
  import opened Results
  import opened Js

  /** A document of the `DatasetModel` collection. */
  datatype DatasetRecord = DatasetRecord(title: string, address: string)

  /** A document of the `ComputeModel` collection. `status` and `info` are unset
      until the first status poll; `outputs`, an array path, starts empty. */
  datatype ComputeJobRecord = ComputeJobRecord(
    jobId: string,
    status: Option<string>,
    info: Option<string>,
    outputs: seq<Value>)

  datatype Store = Store(datasets: seq<DatasetRecord>, jobs: seq<ComputeJobRecord>)

  /** The record `new ComputeModel({jobId}).save()` writes. */
  function NewJob(jobId: string): ComputeJobRecord {
    ComputeJobRecord(jobId, None, None, [])
  }

  /** The fields a status poll writes: `{status, info, outputs}`. */
  datatype JobUpdate = JobUpdate(status: string, info: string, outputs: seq<Value>)

  /** The record after `$set` of the update: the three fields are replaced
      wholesale and the job id is kept. */
  function Overwrite(rec: ComputeJobRecord, u: JobUpdate): ComputeJobRecord {
    ComputeJobRecord(rec.jobId, Some(u.status), Some(u.info), u.outputs)
  }

  /** `i` is the position of the first record whose `jobId` is `id`. */
  ghost predicate IsFirstMatch(jobs: seq<ComputeJobRecord>, id: string, i: int) {
    && 0 <= i < |jobs|
    && jobs[i].jobId == id
    && forall j :: 0 <= j < i ==> jobs[j].jobId != id
  }

  /** `ComputeModel.findOneAndUpdate({jobId: id}, update)`: the first record
      with the id is overwritten, every other record is kept. */
  function UpdateFirst(jobs: seq<ComputeJobRecord>, id: string, u: JobUpdate): (r: seq<ComputeJobRecord>)
    ensures |r| == |jobs|
    ensures forall k :: 0 <= k < |jobs| ==>
              r[k] == if IsFirstMatch(jobs, id, k) then Overwrite(jobs[k], u) else jobs[k]
  {
    if jobs == [] then []
    else if jobs[0].jobId == id then
      FirstMatchAtHead(jobs, id);
      [Overwrite(jobs[0], u)] + jobs[1..]
    else
      var rest := UpdateFirst(jobs[1..], id, u);
      FirstMatchAfterHead(jobs, id);
      var r := [jobs[0]] + rest;
      assert forall k :: 1 <= k < |jobs| ==> r[k] == rest[k - 1] && jobs[k] == jobs[1..][k - 1];
      r
  }

  lemma FirstMatchAtHead(jobs: seq<ComputeJobRecord>, id: string)
    requires jobs != [] && jobs[0].jobId == id
    ensures forall k :: 0 <= k < |jobs| ==> (IsFirstMatch(jobs, id, k) <==> k == 0)
  {
  }

  lemma FirstMatchAfterHead(jobs: seq<ComputeJobRecord>, id: string)
    requires jobs != [] && jobs[0].jobId != id
    ensures !IsFirstMatch(jobs, id, 0)
    ensures forall k :: 1 <= k < |jobs| ==> (IsFirstMatch(jobs, id, k) <==> IsFirstMatch(jobs[1..], id, k - 1))
  {
    forall k | 1 <= k < |jobs|
      ensures IsFirstMatch(jobs, id, k) <==> IsFirstMatch(jobs[1..], id, k - 1)
    {
      assert forall j :: 1 <= j < k ==> jobs[j] == jobs[1..][j - 1];
    }
  }

  /** With no record carrying the id, the jobs are unchanged. */
  lemma UpdateWithoutMatch(jobs: seq<ComputeJobRecord>, id: string, u: JobUpdate)
    requires forall i :: 0 <= i < |jobs| ==> jobs[i].jobId != id
    ensures UpdateFirst(jobs, id, u) == jobs
  {
    var r := UpdateFirst(jobs, id, u);
    assert forall k :: 0 <= k < |jobs| ==> r[k] == jobs[k];
  }

  /** The job ids in storage order. */
  function JobIds(jobs: seq<ComputeJobRecord>): (r: seq<string>)
    ensures |r| == |jobs|
    ensures forall i :: 0 <= i < |jobs| ==> r[i] == jobs[i].jobId
  {
    if jobs == [] then [] else [jobs[0].jobId] + JobIds(jobs[1..])
  }

  /** A poll never changes which job ids are stored, nor their order. */
  lemma {:induction false} UpdateKeepsJobIds(jobs: seq<ComputeJobRecord>, id: string, u: JobUpdate)
    ensures JobIds(UpdateFirst(jobs, id, u)) == JobIds(jobs)
  {
    var r := UpdateFirst(jobs, id, u);
    if exists i :: IsFirstMatch(jobs, id, i) {
      var i :| IsFirstMatch(jobs, id, i);
      assert forall k :: 0 <= k < |jobs| ==> r[k].jobId == jobs[k].jobId;
    } else {
      forall i | 0 <= i < |jobs| ensures jobs[i].jobId != id {
        if jobs[i].jobId == id {
          FirstMatchExists(jobs, id, i);
        }
      }
    }
  }

  /** A record with the id at position `k` means there is a first such record. */
  lemma {:induction false} FirstMatchExists(jobs: seq<ComputeJobRecord>, id: string, k: int)
    requires 0 <= k < |jobs| && jobs[k].jobId == id
    ensures exists i :: IsFirstMatch(jobs, id, i)
  {
    if forall j :: 0 <= j < k ==> jobs[j].jobId != id {
      assert IsFirstMatch(jobs, id, k);
    } else {
      var j :| 0 <= j < k && jobs[j].jobId == id;
      FirstMatchExists(jobs, id, j);
    }
  }

  /** Writing the same poll result twice leaves the store as writing it once. */
  lemma {:induction false} UpdateFirstIdempotent(jobs: seq<ComputeJobRecord>, id: string, u: JobUpdate)
    ensures UpdateFirst(UpdateFirst(jobs, id, u), id, u) == UpdateFirst(jobs, id, u)
  {
    if jobs != [] && jobs[0].jobId != id {
      UpdateFirstIdempotent(jobs[1..], id, u);
      var once := UpdateFirst(jobs, id, u);
      assert once[1..] == UpdateFirst(jobs[1..], id, u);
    }
  }
}
