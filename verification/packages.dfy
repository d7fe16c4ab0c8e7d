/**
  Packages as the engine hands them to the translators, and their projection
  onto the JSON package object (`json_package`, dnfjson.py:77-84).
 */
module Packages {

  /** A concrete package build as the engine describes it; only the attributes the projection reads, plus its origin repository. */
  datatype PackageRef = PackageRef(
    name: string,
    epoch: nat,
    version: string,
    release: string,
    arch: string,
    repo: string)

  /** The JSON package object: exactly five fields, no repository. */
  datatype PackageObject = PackageObject(
    name: string,
    epoch: nat,
    version: string,
    release: string,
    arch: string)

  /** Two references describe the same build: same name, epoch, version, release and architecture. */
  predicate SameBuild(p: PackageRef, q: PackageRef)
  {
    && p.name == q.name
    && p.epoch == q.epoch
    && p.version == q.version
    && p.release == q.release
    && p.arch == q.arch
  }

  /** `json_package`: project a package onto its JSON object. */
  function JsonPackage(p: PackageRef): (o: PackageObject)
    ensures o.name == p.name && o.epoch == p.epoch && o.version == p.version
    ensures o.release == p.release && o.arch == p.arch
  {
    PackageObject(p.name, p.epoch, p.version, p.release, p.arch)
  }

  /** Two packages project to the same object exactly when they are the same build. */
  lemma JsonPackageIdentity(p: PackageRef, q: PackageRef)
    ensures JsonPackage(p) == JsonPackage(q) <==> SameBuild(p, q)
  {
  }
}
