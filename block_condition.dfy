/**
  BlockCondition: the four kinds of rule a conditional block can carry. Every
  rule has a firing chance and the block to become; block-triggered rules key
  on a block URI, entity-triggered rules on an entity category ("item", "npc",
  "player"). Distances, angles and chances are Java floats, modelled as reals.
 */
module BlockConditions {
  import opened Engine

  /** The six faces of a block. */
  datatype Side = Top | Bottom | Left | Right | Front | Back

  datatype BlockCondition =
    | BlockNearby(chance: real, blockToBecome: BlockId, triggerBlock: BlockId,
                  minDistance: real, maxDistance: real, adjacent: bool, throughWalls: bool)
    | BlockDirected(chance: real, blockToBecome: BlockId, triggerBlock: BlockId,
                    blockSide: Side, minDistance: real, maxDistance: real, fieldOfView: real, throughWalls: bool)
    | EntityNearby(chance: real, blockToBecome: BlockId, triggerEntity: string,
                   minDistance: real, maxDistance: real, throughWalls: bool)
    | EntityDirected(chance: real, blockToBecome: BlockId, triggerEntity: string,
                     blockSide: Side, minDistance: real, maxDistance: real, fieldOfView: real, throughWalls: bool)
  {
    /** Block-triggered rules (BlockTrigger subclasses) as opposed to entity-triggered ones. */
    predicate IsBlockTriggered()
    {
      BlockNearby? || BlockDirected?
    }

    /** Directed rules also test the side the trigger lies on and the field of view. */
    predicate IsDirected()
    {
      BlockDirected? || EntityDirected?
    }

    /** The key the rule listens to: triggerBlock or triggerEntity. */
    function Trigger(): string
    {
      if IsBlockTriggered() then triggerBlock else triggerEntity
    }
  }

  type BlockNearbyRule = r: BlockCondition | r.BlockNearby?
    witness BlockNearby(1.0, "", "", 0.0, 1.5, false, false)
  type BlockDirectedRule = r: BlockCondition | r.BlockDirected?
    witness BlockDirected(1.0, "", "", Top, 0.0, 1.0, 0.0, false)
  type EntityNearbyRule = r: BlockCondition | r.EntityNearby?
    witness EntityNearby(1.0, "", "", 0.0, 1.5, false)
  type EntityDirectedRule = r: BlockCondition | r.EntityDirected?
    witness EntityDirected(1.0, "", "", Top, 0.0, 1.0, 0.0, false)

  // Rules with every field the configuration leaves out at its declared default:
  // chance 1.0; nearby range [0, 1.5]; directed range [0, 1] with field of view 0;
  // not adjacent; occlusion checked (throughWalls false).

  function DefaultBlockNearby(triggerBlock: BlockId, blockToBecome: BlockId): (r: BlockNearbyRule)
    ensures r.IsBlockTriggered() && !r.IsDirected()
    ensures r.Trigger() == triggerBlock && r.blockToBecome == blockToBecome
    ensures r.chance == 1.0 && r.minDistance == 0.0 && r.maxDistance == 1.5
    ensures !r.adjacent && !r.throughWalls
  {
    BlockNearby(1.0, blockToBecome, triggerBlock, 0.0, 1.5, false, false)
  }

  function DefaultBlockDirected(triggerBlock: BlockId, blockToBecome: BlockId, blockSide: Side): (r: BlockDirectedRule)
    ensures r.IsBlockTriggered() && r.IsDirected() && r.blockSide == blockSide
    ensures r.Trigger() == triggerBlock && r.blockToBecome == blockToBecome
    ensures r.chance == 1.0 && r.minDistance == 0.0 && r.maxDistance == 1.0 && r.fieldOfView == 0.0
    ensures !r.throughWalls
  {
    BlockDirected(1.0, blockToBecome, triggerBlock, blockSide, 0.0, 1.0, 0.0, false)
  }

  function DefaultEntityNearby(triggerEntity: string, blockToBecome: BlockId): (r: EntityNearbyRule)
    ensures !r.IsBlockTriggered() && !r.IsDirected()
    ensures r.Trigger() == triggerEntity && r.blockToBecome == blockToBecome
    ensures r.chance == 1.0 && r.minDistance == 0.0 && r.maxDistance == 1.5
    ensures !r.throughWalls
  {
    EntityNearby(1.0, blockToBecome, triggerEntity, 0.0, 1.5, false)
  }

  function DefaultEntityDirected(triggerEntity: string, blockToBecome: BlockId, blockSide: Side): (r: EntityDirectedRule)
    ensures !r.IsBlockTriggered() && r.IsDirected() && r.blockSide == blockSide
    ensures r.Trigger() == triggerEntity && r.blockToBecome == blockToBecome
    ensures r.chance == 1.0 && r.minDistance == 0.0 && r.maxDistance == 1.0 && r.fieldOfView == 0.0
    ensures !r.throughWalls
  {
    EntityDirected(1.0, blockToBecome, triggerEntity, blockSide, 0.0, 1.0, 0.0, false)
  }
}
