// The three constant tables of main/Tool/app_crc.c, as functions of the byte that
// indexes them: the high nibble picks the row, the low nibble the entry.
module CrcTables {
  // Modbus CRC-16, lines 5-262.
  function ModbusTable(i: bv8): bv16 {
    match i >> 4
    case 0 => (match i & 15
      case 0 => 0x0000 case 1 => 0xC0C1 case 2 => 0xC181 case 3 => 0x0140 case 4 => 0xC301 case 5 => 0x03C0 case 6 => 0x0280 case 7 => 0xC241
      case 8 => 0xC601 case 9 => 0x06C0 case 10 => 0x0780 case 11 => 0xC741 case 12 => 0x0500 case 13 => 0xC5C1 case 14 => 0xC481 case _ => 0x0440)
    case 1 => (match i & 15
      case 0 => 0xCC01 case 1 => 0x0CC0 case 2 => 0x0D80 case 3 => 0xCD41 case 4 => 0x0F00 case 5 => 0xCFC1 case 6 => 0xCE81 case 7 => 0x0E40
      case 8 => 0x0A00 case 9 => 0xCAC1 case 10 => 0xCB81 case 11 => 0x0B40 case 12 => 0xC901 case 13 => 0x09C0 case 14 => 0x0880 case _ => 0xC841)
    case 2 => (match i & 15
      case 0 => 0xD801 case 1 => 0x18C0 case 2 => 0x1980 case 3 => 0xD941 case 4 => 0x1B00 case 5 => 0xDBC1 case 6 => 0xDA81 case 7 => 0x1A40
      case 8 => 0x1E00 case 9 => 0xDEC1 case 10 => 0xDF81 case 11 => 0x1F40 case 12 => 0xDD01 case 13 => 0x1DC0 case 14 => 0x1C80 case _ => 0xDC41)
    case 3 => (match i & 15
      case 0 => 0x1400 case 1 => 0xD4C1 case 2 => 0xD581 case 3 => 0x1540 case 4 => 0xD701 case 5 => 0x17C0 case 6 => 0x1680 case 7 => 0xD641
      case 8 => 0xD201 case 9 => 0x12C0 case 10 => 0x1380 case 11 => 0xD341 case 12 => 0x1100 case 13 => 0xD1C1 case 14 => 0xD081 case _ => 0x1040)
    case 4 => (match i & 15
      case 0 => 0xF001 case 1 => 0x30C0 case 2 => 0x3180 case 3 => 0xF141 case 4 => 0x3300 case 5 => 0xF3C1 case 6 => 0xF281 case 7 => 0x3240
      case 8 => 0x3600 case 9 => 0xF6C1 case 10 => 0xF781 case 11 => 0x3740 case 12 => 0xF501 case 13 => 0x35C0 case 14 => 0x3480 case _ => 0xF441)
    case 5 => (match i & 15
      case 0 => 0x3C00 case 1 => 0xFCC1 case 2 => 0xFD81 case 3 => 0x3D40 case 4 => 0xFF01 case 5 => 0x3FC0 case 6 => 0x3E80 case 7 => 0xFE41
      case 8 => 0xFA01 case 9 => 0x3AC0 case 10 => 0x3B80 case 11 => 0xFB41 case 12 => 0x3900 case 13 => 0xF9C1 case 14 => 0xF881 case _ => 0x3840)
    case 6 => (match i & 15
      case 0 => 0x2800 case 1 => 0xE8C1 case 2 => 0xE981 case 3 => 0x2940 case 4 => 0xEB01 case 5 => 0x2BC0 case 6 => 0x2A80 case 7 => 0xEA41
      case 8 => 0xEE01 case 9 => 0x2EC0 case 10 => 0x2F80 case 11 => 0xEF41 case 12 => 0x2D00 case 13 => 0xEDC1 case 14 => 0xEC81 case _ => 0x2C40)
    case 7 => (match i & 15
      case 0 => 0xE401 case 1 => 0x24C0 case 2 => 0x2580 case 3 => 0xE541 case 4 => 0x2700 case 5 => 0xE7C1 case 6 => 0xE681 case 7 => 0x2640
      case 8 => 0x2200 case 9 => 0xE2C1 case 10 => 0xE381 case 11 => 0x2340 case 12 => 0xE101 case 13 => 0x21C0 case 14 => 0x2080 case _ => 0xE041)
    case 8 => (match i & 15
      case 0 => 0xA001 case 1 => 0x60C0 case 2 => 0x6180 case 3 => 0xA141 case 4 => 0x6300 case 5 => 0xA3C1 case 6 => 0xA281 case 7 => 0x6240
      case 8 => 0x6600 case 9 => 0xA6C1 case 10 => 0xA781 case 11 => 0x6740 case 12 => 0xA501 case 13 => 0x65C0 case 14 => 0x6480 case _ => 0xA441)
    case 9 => (match i & 15
      case 0 => 0x6C00 case 1 => 0xACC1 case 2 => 0xAD81 case 3 => 0x6D40 case 4 => 0xAF01 case 5 => 0x6FC0 case 6 => 0x6E80 case 7 => 0xAE41
      case 8 => 0xAA01 case 9 => 0x6AC0 case 10 => 0x6B80 case 11 => 0xAB41 case 12 => 0x6900 case 13 => 0xA9C1 case 14 => 0xA881 case _ => 0x6840)
    case 10 => (match i & 15
      case 0 => 0x7800 case 1 => 0xB8C1 case 2 => 0xB981 case 3 => 0x7940 case 4 => 0xBB01 case 5 => 0x7BC0 case 6 => 0x7A80 case 7 => 0xBA41
      case 8 => 0xBE01 case 9 => 0x7EC0 case 10 => 0x7F80 case 11 => 0xBF41 case 12 => 0x7D00 case 13 => 0xBDC1 case 14 => 0xBC81 case _ => 0x7C40)
    case 11 => (match i & 15
      case 0 => 0xB401 case 1 => 0x74C0 case 2 => 0x7580 case 3 => 0xB541 case 4 => 0x7700 case 5 => 0xB7C1 case 6 => 0xB681 case 7 => 0x7640
      case 8 => 0x7200 case 9 => 0xB2C1 case 10 => 0xB381 case 11 => 0x7340 case 12 => 0xB101 case 13 => 0x71C0 case 14 => 0x7080 case _ => 0xB041)
    case 12 => (match i & 15
      case 0 => 0x5000 case 1 => 0x90C1 case 2 => 0x9181 case 3 => 0x5140 case 4 => 0x9301 case 5 => 0x53C0 case 6 => 0x5280 case 7 => 0x9241
      case 8 => 0x9601 case 9 => 0x56C0 case 10 => 0x5780 case 11 => 0x9741 case 12 => 0x5500 case 13 => 0x95C1 case 14 => 0x9481 case _ => 0x5440)
    case 13 => (match i & 15
      case 0 => 0x9C01 case 1 => 0x5CC0 case 2 => 0x5D80 case 3 => 0x9D41 case 4 => 0x5F00 case 5 => 0x9FC1 case 6 => 0x9E81 case 7 => 0x5E40
      case 8 => 0x5A00 case 9 => 0x9AC1 case 10 => 0x9B81 case 11 => 0x5B40 case 12 => 0x9901 case 13 => 0x59C0 case 14 => 0x5880 case _ => 0x9841)
    case 14 => (match i & 15
      case 0 => 0x8801 case 1 => 0x48C0 case 2 => 0x4980 case 3 => 0x8941 case 4 => 0x4B00 case 5 => 0x8BC1 case 6 => 0x8A81 case 7 => 0x4A40
      case 8 => 0x4E00 case 9 => 0x8EC1 case 10 => 0x8F81 case 11 => 0x4F40 case 12 => 0x8D01 case 13 => 0x4DC0 case 14 => 0x4C80 case _ => 0x8C41)
    case _ => (match i & 15
      case 0 => 0x4400 case 1 => 0x84C1 case 2 => 0x8581 case 3 => 0x4540 case 4 => 0x8701 case 5 => 0x47C0 case 6 => 0x4680 case 7 => 0x8641
      case 8 => 0x8201 case 9 => 0x42C0 case 10 => 0x4380 case 11 => 0x8341 case 12 => 0x4100 case 13 => 0x81C1 case 14 => 0x8081 case _ => 0x4040)
  }

  // XMODEM CRC-16, lines 265-297.
  function XmodemTable(i: bv8): bv16 {
    match i >> 4
    case 0 => (match i & 15
      case 0 => 0x0000 case 1 => 0x1021 case 2 => 0x2042 case 3 => 0x3063 case 4 => 0x4084 case 5 => 0x50A5 case 6 => 0x60C6 case 7 => 0x70E7
      case 8 => 0x8108 case 9 => 0x9129 case 10 => 0xA14A case 11 => 0xB16B case 12 => 0xC18C case 13 => 0xD1AD case 14 => 0xE1CE case _ => 0xF1EF)
    case 1 => (match i & 15
      case 0 => 0x1231 case 1 => 0x0210 case 2 => 0x3273 case 3 => 0x2252 case 4 => 0x52B5 case 5 => 0x4294 case 6 => 0x72F7 case 7 => 0x62D6
      case 8 => 0x9339 case 9 => 0x8318 case 10 => 0xB37B case 11 => 0xA35A case 12 => 0xD3BD case 13 => 0xC39C case 14 => 0xF3FF case _ => 0xE3DE)
    case 2 => (match i & 15
      case 0 => 0x2462 case 1 => 0x3443 case 2 => 0x0420 case 3 => 0x1401 case 4 => 0x64E6 case 5 => 0x74C7 case 6 => 0x44A4 case 7 => 0x5485
      case 8 => 0xA56A case 9 => 0xB54B case 10 => 0x8528 case 11 => 0x9509 case 12 => 0xE5EE case 13 => 0xF5CF case 14 => 0xC5AC case _ => 0xD58D)
    case 3 => (match i & 15
      case 0 => 0x3653 case 1 => 0x2672 case 2 => 0x1611 case 3 => 0x0630 case 4 => 0x76D7 case 5 => 0x66F6 case 6 => 0x5695 case 7 => 0x46B4
      case 8 => 0xB75B case 9 => 0xA77A case 10 => 0x9719 case 11 => 0x8738 case 12 => 0xF7DF case 13 => 0xE7FE case 14 => 0xD79D case _ => 0xC7BC)
    case 4 => (match i & 15
      case 0 => 0x48C4 case 1 => 0x58E5 case 2 => 0x6886 case 3 => 0x78A7 case 4 => 0x0840 case 5 => 0x1861 case 6 => 0x2802 case 7 => 0x3823
      case 8 => 0xC9CC case 9 => 0xD9ED case 10 => 0xE98E case 11 => 0xF9AF case 12 => 0x8948 case 13 => 0x9969 case 14 => 0xA90A case _ => 0xB92B)
    case 5 => (match i & 15
      case 0 => 0x5AF5 case 1 => 0x4AD4 case 2 => 0x7AB7 case 3 => 0x6A96 case 4 => 0x1A71 case 5 => 0x0A50 case 6 => 0x3A33 case 7 => 0x2A12
      case 8 => 0xDBFD case 9 => 0xCBDC case 10 => 0xFBBF case 11 => 0xEB9E case 12 => 0x9B79 case 13 => 0x8B58 case 14 => 0xBB3B case _ => 0xAB1A)
    case 6 => (match i & 15
      case 0 => 0x6CA6 case 1 => 0x7C87 case 2 => 0x4CE4 case 3 => 0x5CC5 case 4 => 0x2C22 case 5 => 0x3C03 case 6 => 0x0C60 case 7 => 0x1C41
      case 8 => 0xEDAE case 9 => 0xFD8F case 10 => 0xCDEC case 11 => 0xDDCD case 12 => 0xAD2A case 13 => 0xBD0B case 14 => 0x8D68 case _ => 0x9D49)
    case 7 => (match i & 15
      case 0 => 0x7E97 case 1 => 0x6EB6 case 2 => 0x5ED5 case 3 => 0x4EF4 case 4 => 0x3E13 case 5 => 0x2E32 case 6 => 0x1E51 case 7 => 0x0E70
      case 8 => 0xFF9F case 9 => 0xEFBE case 10 => 0xDFDD case 11 => 0xCFFC case 12 => 0xBF1B case 13 => 0xAF3A case 14 => 0x9F59 case _ => 0x8F78)
    case 8 => (match i & 15
      case 0 => 0x9188 case 1 => 0x81A9 case 2 => 0xB1CA case 3 => 0xA1EB case 4 => 0xD10C case 5 => 0xC12D case 6 => 0xF14E case 7 => 0xE16F
      case 8 => 0x1080 case 9 => 0x00A1 case 10 => 0x30C2 case 11 => 0x20E3 case 12 => 0x5004 case 13 => 0x4025 case 14 => 0x7046 case _ => 0x6067)
    case 9 => (match i & 15
      case 0 => 0x83B9 case 1 => 0x9398 case 2 => 0xA3FB case 3 => 0xB3DA case 4 => 0xC33D case 5 => 0xD31C case 6 => 0xE37F case 7 => 0xF35E
      case 8 => 0x02B1 case 9 => 0x1290 case 10 => 0x22F3 case 11 => 0x32D2 case 12 => 0x4235 case 13 => 0x5214 case 14 => 0x6277 case _ => 0x7256)
    case 10 => (match i & 15
      case 0 => 0xB5EA case 1 => 0xA5CB case 2 => 0x95A8 case 3 => 0x8589 case 4 => 0xF56E case 5 => 0xE54F case 6 => 0xD52C case 7 => 0xC50D
      case 8 => 0x34E2 case 9 => 0x24C3 case 10 => 0x14A0 case 11 => 0x0481 case 12 => 0x7466 case 13 => 0x6447 case 14 => 0x5424 case _ => 0x4405)
    case 11 => (match i & 15
      case 0 => 0xA7DB case 1 => 0xB7FA case 2 => 0x8799 case 3 => 0x97B8 case 4 => 0xE75F case 5 => 0xF77E case 6 => 0xC71D case 7 => 0xD73C
      case 8 => 0x26D3 case 9 => 0x36F2 case 10 => 0x0691 case 11 => 0x16B0 case 12 => 0x6657 case 13 => 0x7676 case 14 => 0x4615 case _ => 0x5634)
    case 12 => (match i & 15
      case 0 => 0xD94C case 1 => 0xC96D case 2 => 0xF90E case 3 => 0xE92F case 4 => 0x99C8 case 5 => 0x89E9 case 6 => 0xB98A case 7 => 0xA9AB
      case 8 => 0x5844 case 9 => 0x4865 case 10 => 0x7806 case 11 => 0x6827 case 12 => 0x18C0 case 13 => 0x08E1 case 14 => 0x3882 case _ => 0x28A3)
    case 13 => (match i & 15
      case 0 => 0xCB7D case 1 => 0xDB5C case 2 => 0xEB3F case 3 => 0xFB1E case 4 => 0x8BF9 case 5 => 0x9BD8 case 6 => 0xABBB case 7 => 0xBB9A
      case 8 => 0x4A75 case 9 => 0x5A54 case 10 => 0x6A37 case 11 => 0x7A16 case 12 => 0x0AF1 case 13 => 0x1AD0 case 14 => 0x2AB3 case _ => 0x3A92)
    case 14 => (match i & 15
      case 0 => 0xFD2E case 1 => 0xED0F case 2 => 0xDD6C case 3 => 0xCD4D case 4 => 0xBDAA case 5 => 0xAD8B case 6 => 0x9DE8 case 7 => 0x8DC9
      case 8 => 0x7C26 case 9 => 0x6C07 case 10 => 0x5C64 case 11 => 0x4C45 case 12 => 0x3CA2 case 13 => 0x2C83 case 14 => 0x1CE0 case _ => 0x0CC1)
    case _ => (match i & 15
      case 0 => 0xEF1F case 1 => 0xFF3E case 2 => 0xCF5D case 3 => 0xDF7C case 4 => 0xAF9B case 5 => 0xBFBA case 6 => 0x8FD9 case 7 => 0x9FF8
      case 8 => 0x6E17 case 9 => 0x7E36 case 10 => 0x4E55 case 11 => 0x5E74 case 12 => 0x2E93 case 13 => 0x3EB2 case 14 => 0x0ED1 case _ => 0x1EF0)
  }

  // CRC-32/MPEG-2, lines 299-557.
  function Mpeg2Table(i: bv8): bv32 {
    match i >> 4
    case 0 => (match i & 15
      case 0 => 0x00000000 case 1 => 0x04C11DB7 case 2 => 0x09823B6E case 3 => 0x0D4326D9 case 4 => 0x130476DC case 5 => 0x17C56B6B case 6 => 0x1A864DB2 case 7 => 0x1E475005
      case 8 => 0x2608EDB8 case 9 => 0x22C9F00F case 10 => 0x2F8AD6D6 case 11 => 0x2B4BCB61 case 12 => 0x350C9B64 case 13 => 0x31CD86D3 case 14 => 0x3C8EA00A case _ => 0x384FBDBD)
    case 1 => (match i & 15
      case 0 => 0x4C11DB70 case 1 => 0x48D0C6C7 case 2 => 0x4593E01E case 3 => 0x4152FDA9 case 4 => 0x5F15ADAC case 5 => 0x5BD4B01B case 6 => 0x569796C2 case 7 => 0x52568B75
      case 8 => 0x6A1936C8 case 9 => 0x6ED82B7F case 10 => 0x639B0DA6 case 11 => 0x675A1011 case 12 => 0x791D4014 case 13 => 0x7DDC5DA3 case 14 => 0x709F7B7A case _ => 0x745E66CD)
    case 2 => (match i & 15
      case 0 => 0x9823B6E0 case 1 => 0x9CE2AB57 case 2 => 0x91A18D8E case 3 => 0x95609039 case 4 => 0x8B27C03C case 5 => 0x8FE6DD8B case 6 => 0x82A5FB52 case 7 => 0x8664E6E5
      case 8 => 0xBE2B5B58 case 9 => 0xBAEA46EF case 10 => 0xB7A96036 case 11 => 0xB3687D81 case 12 => 0xAD2F2D84 case 13 => 0xA9EE3033 case 14 => 0xA4AD16EA case _ => 0xA06C0B5D)
    case 3 => (match i & 15
      case 0 => 0xD4326D90 case 1 => 0xD0F37027 case 2 => 0xDDB056FE case 3 => 0xD9714B49 case 4 => 0xC7361B4C case 5 => 0xC3F706FB case 6 => 0xCEB42022 case 7 => 0xCA753D95
      case 8 => 0xF23A8028 case 9 => 0xF6FB9D9F case 10 => 0xFBB8BB46 case 11 => 0xFF79A6F1 case 12 => 0xE13EF6F4 case 13 => 0xE5FFEB43 case 14 => 0xE8BCCD9A case _ => 0xEC7DD02D)
    case 4 => (match i & 15
      case 0 => 0x34867077 case 1 => 0x30476DC0 case 2 => 0x3D044B19 case 3 => 0x39C556AE case 4 => 0x278206AB case 5 => 0x23431B1C case 6 => 0x2E003DC5 case 7 => 0x2AC12072
      case 8 => 0x128E9DCF case 9 => 0x164F8078 case 10 => 0x1B0CA6A1 case 11 => 0x1FCDBB16 case 12 => 0x018AEB13 case 13 => 0x054BF6A4 case 14 => 0x0808D07D case _ => 0x0CC9CDCA)
    case 5 => (match i & 15
      case 0 => 0x7897AB07 case 1 => 0x7C56B6B0 case 2 => 0x71159069 case 3 => 0x75D48DDE case 4 => 0x6B93DDDB case 5 => 0x6F52C06C case 6 => 0x6211E6B5 case 7 => 0x66D0FB02
      case 8 => 0x5E9F46BF case 9 => 0x5A5E5B08 case 10 => 0x571D7DD1 case 11 => 0x53DC6066 case 12 => 0x4D9B3063 case 13 => 0x495A2DD4 case 14 => 0x44190B0D case _ => 0x40D816BA)
    case 6 => (match i & 15
      case 0 => 0xACA5C697 case 1 => 0xA864DB20 case 2 => 0xA527FDF9 case 3 => 0xA1E6E04E case 4 => 0xBFA1B04B case 5 => 0xBB60ADFC case 6 => 0xB6238B25 case 7 => 0xB2E29692
      case 8 => 0x8AAD2B2F case 9 => 0x8E6C3698 case 10 => 0x832F1041 case 11 => 0x87EE0DF6 case 12 => 0x99A95DF3 case 13 => 0x9D684044 case 14 => 0x902B669D case _ => 0x94EA7B2A)
    case 7 => (match i & 15
      case 0 => 0xE0B41DE7 case 1 => 0xE4750050 case 2 => 0xE9362689 case 3 => 0xEDF73B3E case 4 => 0xF3B06B3B case 5 => 0xF771768C case 6 => 0xFA325055 case 7 => 0xFEF34DE2
      case 8 => 0xC6BCF05F case 9 => 0xC27DEDE8 case 10 => 0xCF3ECB31 case 11 => 0xCBFFD686 case 12 => 0xD5B88683 case 13 => 0xD1799B34 case 14 => 0xDC3ABDED case _ => 0xD8FBA05A)
    case 8 => (match i & 15
      case 0 => 0x690CE0EE case 1 => 0x6DCDFD59 case 2 => 0x608EDB80 case 3 => 0x644FC637 case 4 => 0x7A089632 case 5 => 0x7EC98B85 case 6 => 0x738AAD5C case 7 => 0x774BB0EB
      case 8 => 0x4F040D56 case 9 => 0x4BC510E1 case 10 => 0x46863638 case 11 => 0x42472B8F case 12 => 0x5C007B8A case 13 => 0x58C1663D case 14 => 0x558240E4 case _ => 0x51435D53)
    case 9 => (match i & 15
      case 0 => 0x251D3B9E case 1 => 0x21DC2629 case 2 => 0x2C9F00F0 case 3 => 0x285E1D47 case 4 => 0x36194D42 case 5 => 0x32D850F5 case 6 => 0x3F9B762C case 7 => 0x3B5A6B9B
      case 8 => 0x0315D626 case 9 => 0x07D4CB91 case 10 => 0x0A97ED48 case 11 => 0x0E56F0FF case 12 => 0x1011A0FA case 13 => 0x14D0BD4D case 14 => 0x19939B94 case _ => 0x1D528623)
    case 10 => (match i & 15
      case 0 => 0xF12F560E case 1 => 0xF5EE4BB9 case 2 => 0xF8AD6D60 case 3 => 0xFC6C70D7 case 4 => 0xE22B20D2 case 5 => 0xE6EA3D65 case 6 => 0xEBA91BBC case 7 => 0xEF68060B
      case 8 => 0xD727BBB6 case 9 => 0xD3E6A601 case 10 => 0xDEA580D8 case 11 => 0xDA649D6F case 12 => 0xC423CD6A case 13 => 0xC0E2D0DD case 14 => 0xCDA1F604 case _ => 0xC960EBB3)
    case 11 => (match i & 15
      case 0 => 0xBD3E8D7E case 1 => 0xB9FF90C9 case 2 => 0xB4BCB610 case 3 => 0xB07DABA7 case 4 => 0xAE3AFBA2 case 5 => 0xAAFBE615 case 6 => 0xA7B8C0CC case 7 => 0xA379DD7B
      case 8 => 0x9B3660C6 case 9 => 0x9FF77D71 case 10 => 0x92B45BA8 case 11 => 0x9675461F case 12 => 0x8832161A case 13 => 0x8CF30BAD case 14 => 0x81B02D74 case _ => 0x857130C3)
    case 12 => (match i & 15
      case 0 => 0x5D8A9099 case 1 => 0x594B8D2E case 2 => 0x5408ABF7 case 3 => 0x50C9B640 case 4 => 0x4E8EE645 case 5 => 0x4A4FFBF2 case 6 => 0x470CDD2B case 7 => 0x43CDC09C
      case 8 => 0x7B827D21 case 9 => 0x7F436096 case 10 => 0x7200464F case 11 => 0x76C15BF8 case 12 => 0x68860BFD case 13 => 0x6C47164A case 14 => 0x61043093 case _ => 0x65C52D24)
    case 13 => (match i & 15
      case 0 => 0x119B4BE9 case 1 => 0x155A565E case 2 => 0x18197087 case 3 => 0x1CD86D30 case 4 => 0x029F3D35 case 5 => 0x065E2082 case 6 => 0x0B1D065B case 7 => 0x0FDC1BEC
      case 8 => 0x3793A651 case 9 => 0x3352BBE6 case 10 => 0x3E119D3F case 11 => 0x3AD08088 case 12 => 0x2497D08D case 13 => 0x2056CD3A case 14 => 0x2D15EBE3 case _ => 0x29D4F654)
    case 14 => (match i & 15
      case 0 => 0xC5A92679 case 1 => 0xC1683BCE case 2 => 0xCC2B1D17 case 3 => 0xC8EA00A0 case 4 => 0xD6AD50A5 case 5 => 0xD26C4D12 case 6 => 0xDF2F6BCB case 7 => 0xDBEE767C
      case 8 => 0xE3A1CBC1 case 9 => 0xE760D676 case 10 => 0xEA23F0AF case 11 => 0xEEE2ED18 case 12 => 0xF0A5BD1D case 13 => 0xF464A0AA case 14 => 0xF9278673 case _ => 0xFDE69BC4)
    case _ => (match i & 15
      case 0 => 0x89B8FD09 case 1 => 0x8D79E0BE case 2 => 0x803AC667 case 3 => 0x84FBDBD0 case 4 => 0x9ABC8BD5 case 5 => 0x9E7D9662 case 6 => 0x933EB0BB case 7 => 0x97FFAD0C
      case 8 => 0xAFB010B1 case 9 => 0xAB710D06 case 10 => 0xA6322BDF case 11 => 0xA2F33668 case 12 => 0xBCB4666D case 13 => 0xB8757BDA case 14 => 0xB5365D03 case _ => 0xB1F740B4)
  }
}
