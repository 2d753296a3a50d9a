/** AutoScaling `DetachInstancesResult`: the activities and response metadata read from the
    response document. */
module AutoScalingModel {
  import opened Wrappers
  import Xml

  /** An `Activity` element; its own parsing is not part of this model, so it is kept as its node. */
  datatype Activity = Activity(source: Xml.XmlNode)

  /** `ResponseMetadata`, kept as the (possibly null) node it was last assigned from. */
  datatype ResponseMetadata = ResponseMetadata(source: Option<Xml.XmlNode>)

  datatype DetachInstancesResult = DetachInstancesResult(activities: seq<Activity>, responseMetadata: ResponseMetadata)

  /** `DetachInstancesResult()`: no activities and metadata never assigned. */
  function NewResult(): (r: DetachInstancesResult)
    ensures r.activities == [] && r.responseMetadata.source.None?
  {
    DetachInstancesResult([], ResponseMetadata(None))
  }

  function AsActivities(nodes: seq<Xml.XmlNode>): (r: seq<Activity>)
    ensures |r| == |nodes|
    ensures forall k :: 0 <= k < |nodes| ==> r[k] == Activity(nodes[k])
  {
    seq(|nodes|, k requires 0 <= k < |nodes| => Activity(nodes[k]))
  }

  /** `operator=(AmazonWebServiceResult<XmlDocument>)` on a document whose root element is `root`
      (`None` for an empty document). Activities come only from the "Activities" children of the
      root's "DetachInstancesResult" child and are appended to those already held; the metadata is
      always reassigned from the root's "ResponseMetadata" child. */
  function Assign(res: DetachInstancesResult, root: Option<Xml.XmlNode>): (r: DetachInstancesResult)
    ensures Xml.FirstChild(root, "DetachInstancesResult").None? ==> r.activities == res.activities
    ensures Xml.FirstChild(root, "DetachInstancesResult").Some? ==>
      var found := Xml.Named(Xml.FirstChild(root, "DetachInstancesResult").value.children, "Activities");
      |r.activities| == |res.activities| + |found| &&
      r.activities[..|res.activities|] == res.activities &&
      forall k :: 0 <= k < |found| ==> r.activities[|res.activities| + k] == Activity(found[k])
    ensures r.responseMetadata == ResponseMetadata(Xml.FirstChild(root, "ResponseMetadata"))
  {
    var resultNode := Xml.FirstChild(root, "DetachInstancesResult");
    var activities :=
      if resultNode.Some? then res.activities + AsActivities(Xml.Named(resultNode.value.children, "Activities"))
      else res.activities;
    DetachInstancesResult(activities, ResponseMetadata(Xml.FirstChild(root, "ResponseMetadata")))
  }

  /** `DetachInstancesResult(result)`: assignment into a fresh result. */
  function FromDocument(root: Option<Xml.XmlNode>): DetachInstancesResult {
    Assign(NewResult(), root)
  }

  /** Assigning the same document twice doubles the activities instead of replacing them, while the
      metadata is the same after either assignment. */
  lemma AssignAppendsRatherThanReplaces(res: DetachInstancesResult, root: Option<Xml.XmlNode>)
    ensures
      var once := Assign(res, root);
      var twice := Assign(once, root);
      |twice.activities| - |once.activities| == |once.activities| - |res.activities| &&
      twice.responseMetadata == once.responseMetadata
  {
  }

  /** A fresh result holds one activity per "Activities" child of the result node, in document order,
      and none when the result node is absent, whether or not the metadata node exists. */
  lemma FromDocumentActivities(root: Option<Xml.XmlNode>)
    ensures
      var resultNode := Xml.FirstChild(root, "DetachInstancesResult");
      FromDocument(root).activities ==
        (if resultNode.Some? then AsActivities(Xml.Named(resultNode.value.children, "Activities")) else [])
  {
  }
}
