/**
 * The constants the scheduler takes from the MODBUS protocol package: legal
 * slave addresses (section 2.2 of the MODBUS over Serial Line specification),
 * the four read function codes and the largest quantity one read may ask for
 * (sections 6.1 to 6.4 of the MODBUS Application Protocol Specification V1.1b3).
 */
module Modbus {
  import opened Base

  const AddressMin: byte := 1
  const AddressMax: byte := 247

  const FuncCodeReadCoils: byte := 0x01
  const FuncCodeReadDiscreteInputs: byte := 0x02
  const FuncCodeReadHoldingRegisters: byte := 0x03
  const FuncCodeReadInputRegisters: byte := 0x04

  /** Largest number of coils or discrete inputs one read may ask for. */
  const ReadBitsQuantityMax: nat := 2000
  /** Largest number of holding or input registers one read may ask for. */
  const ReadRegQuantityMax: nat := 125
}
