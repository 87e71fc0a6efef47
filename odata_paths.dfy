/** The SAP Gateway path convention shared by every script: an OData service is
    reached under `/sap/opu/odata/sap/<service>` and an entity set under
    `/sap/opu/odata/sap/<service>/<entity>`. */
module ODataPaths {

  const ODataRoot: string := "/sap/opu/odata/sap/"

  /** Path of an entity set of a service, in the standard request style. */
  function EntityPath(service: string, entity: string): (p: string)
    ensures |p| == |ODataRoot| + |service| + 1 + |entity|
    ensures p[..|ODataRoot|] == ODataRoot
    ensures p[|ODataRoot|..|ODataRoot| + |service|] == service
    ensures p[|ODataRoot| + |service|] == '/'
    ensures p[|ODataRoot| + |service| + 1..] == entity
  {
    ODataRoot + service + "/" + entity
  }

  /** The entity path names its service and entity: two equal paths whose
      service names avoid '/' agree on both. */
  lemma EntityPathInjective(s1: string, e1: string, s2: string, e2: string)
    requires '/' !in s1 && '/' !in s2
    requires EntityPath(s1, e1) == EntityPath(s2, e2)
    ensures s1 == s2 && e1 == e2
  {
  }
}
