/** The VMware inventory records that assessment, mapping and planning read. */
module Inventory {
  import opened Prelude

  datatype Disk = Disk(diskLabel: string, capacityGb: int, thinProvisioned: bool)

  datatype Nic = Nic(networkName: string, nicType: Option<string>)

  datatype Hardware = Hardware(cpuCount: int, memoryMb: int, disks: seq<Disk>, nics: seq<Nic>)

  /** A missing list of disk controllers and an empty one are treated alike by every reader. */
  datatype VM = VM(
    id: string, name: string, powerState: string, guestOs: Option<string>, hardware: Option<Hardware>,
    firmware: Option<string>, secureBoot: bool, toolsStatus: Option<string>, controllers: seq<string>)

  /** Lower-casing is a parameter of the model: nothing proved here depends on how it treats a character. */
  type Lower = string -> string

  function NicsOf(vm: VM): seq<Nic> {
    if vm.hardware.None? then [] else vm.hardware.value.nics
  }

  function DisksOf(vm: VM): seq<Disk> {
    if vm.hardware.None? then [] else vm.hardware.value.disks
  }

  function TotalDisk(disks: seq<Disk>): int {
    if disks == [] then 0 else disks[0].capacityGb + TotalDisk(disks[1..])
  }

  /** The sum: nothing for no disk, and each disk adds its own capacity, wherever it stands. */
  lemma {:induction false} TotalDiskIsSum(front: seq<Disk>, d: Disk, back: seq<Disk>)
    ensures TotalDisk([]) == 0
    ensures TotalDisk(front + [d] + back) == d.capacityGb + TotalDisk(front + back)
  {
    if front == [] {
      assert (front + [d] + back)[1..] == back && front + back == back;
    } else {
      TotalDiskIsSum(front[1..], d, back);
      assert (front + [d] + back)[1..] == front[1..] + [d] + back;
      assert (front + back)[1..] == front[1..] + back;
    }
  }
}
