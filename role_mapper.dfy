/** mappers/role.mapper.ts. */
module RoleMapper {
  import opened Wrappers
  import Seqs
  import EnumMapper
  import opened RoleTypes

  /** `mapRoleFromResponse`: a missing id is "", the name is decoded with ROLE_ADMINISTRATOR as fallback. */
  function MapRoleFromResponse(dto: RoleResponse): (e: RoleEntity)
    ensures e.id == dto.id.GetOr("")
    ensures EnumMapper.Decoded(dto.name, RolesName, e.name, ROLE_ADMINISTRATOR)
  {
    RoleEntity(dto.id.GetOr(""), RolesFrom(dto.name, ROLE_ADMINISTRATOR))
  }

  /** `mapRolesFromResponse`: element by element, in order. */
  function MapRolesFromResponse(dtos: seq<RoleResponse>): (es: seq<RoleEntity>)
    ensures |es| == |dtos|
    ensures forall i :: 0 <= i < |dtos| ==> es[i] == MapRoleFromResponse(dtos[i])
  {
    Seqs.Map(MapRoleFromResponse, dtos)
  }

  /** `RolesEnum` has a single member, so every mapped role is ROLE_ADMINISTRATOR, whatever name the backend sent. */
  lemma EveryRoleIsAdministrator(dtos: seq<RoleResponse>)
    ensures forall i :: 0 <= i < |dtos| ==> MapRolesFromResponse(dtos)[i].name == ROLE_ADMINISTRATOR
  {
  }
}
